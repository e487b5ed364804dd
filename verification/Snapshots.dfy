/** What survives stale snapshots: invariants of the dispatcher fleet under every interleaving, every
    repetition, crashes and outstayed locks. */
module Snapshots {
  import opened Domain
  import opened Interleaving

  ghost predicate HasRow(attempts: seq<Attempt>, id: string, n: int) {
    exists r :: r in attempts && r.eventId == id && r.number == n
  }

  ghost predicate HasRows(attempts: seq<Attempt>, id: string, k: int) {
    forall n :: 1 <= n <= k ==> HasRow(attempts, id, n)
  }

  ghost predicate HasSuccess(attempts: seq<Attempt>, id: string) {
    exists r :: r in attempts && r.eventId == id && r.reply.Success()
  }

  ghost predicate HasLetter(letters: seq<DeadLetter>, id: string, e: Event) {
    exists l :: l in letters && l.eventId == id && l.tenant == e.tenant && l.endpoint == e.endpoint
                && l.eventType == e.eventType && l.payload == e.payload
  }

  /** The columns no UPDATE touches. */
  predicate SameOrigin(e: Event, e': Event) {
    e.tenant == e'.tenant && e.endpoint == e'.endpoint && e.eventType == e'.eventType
    && e.payload == e'.payload && e.signature == e'.signature && e.maxAttempts == e'.maxAttempts
  }

  predicate InBudget(e: Event) {
    && e.status != Delivering && e.maxAttempts == MAX_ATTEMPTS && 0 <= e.attemptCount < e.maxAttempts
    && (e.status == Retrying ==> e.attemptCount >= 1)
    && (e.attemptCount >= 1 <==> e.nextRetryAt.Some?)
  }

  ghost predicate Backed(s: State, id: string, e: Event) {
    && HasRows(s.attempts, id, e.attemptCount)
    && (e.status == Delivered ==> HasSuccess(s.attempts, id))
    && (e.status == Failed ==> HasLetter(s.deadLetters, id, e))
  }

  ghost predicate WorkerBacked(s: State, me: Worker)
    requires me.At?
  {
    && HasRows(s.attempts, me.id, me.ev.attemptCount)
    && (me.pc.Logged? ==> HasRow(s.attempts, me.id, me.ev.attemptCount + 1)
                          && (me.pc.reply.Success() ==> HasSuccess(s.attempts, me.id)))
    && (me.pc.Buried? ==> HasLetter(s.deadLetters, me.id, me.ev))
  }

  /** `inserts` says whether inserts into the log and the dead-letter table are all stored. */
  ghost predicate EventOk(s: State, id: string, e: Event, inserts: bool) {
    InBudget(e) && (inserts ==> Backed(s, id, e))
  }

  ghost predicate WorkerOk(s: State, me: Worker, inserts: bool) {
    me.At? ==>
      && me.id in s.events && SameOrigin(me.ev, s.events[me.id]) && InBudget(me.ev)
      && (inserts ==> WorkerBacked(s, me))
  }

  ghost predicate AllOk(s: State, inserts: bool) {
    && (forall id :: id in s.events ==> EventOk(s, id, s.events[id], inserts))
    && (forall w :: 0 <= w < |s.workers| ==> WorkerOk(s, s.workers[w], inserts))
  }

  ghost predicate Grown(s: State, s': State) {
    && (forall r :: r in s.attempts ==> r in s'.attempts)
    && (forall l :: l in s.deadLetters ==> l in s'.deadLetters)
    && (forall id :: id in s.events ==> id in s'.events && SameOrigin(s.events[id], s'.events[id]))
  }

  predicate InsertsStored(st: Step) {
    (st.Log? || st.Bury?) ==> st.stored
  }

  lemma EarlyGrows(s: State, st: Step)
    requires Enabled(s, st) && Early(st)
    ensures Apply(s, st).events == s.events && Apply(s, st).attempts == s.attempts
            && Apply(s, st).deadLetters == s.deadLetters
  {
  }

  lemma LogOrBuryGrows(s: State, st: Step)
    requires Enabled(s, st) && (st.Log? || st.Bury?)
    ensures Grown(s, Apply(s, st))
  {
  }

  lemma SettleGrows(s: State, st: Step)
    requires Enabled(s, st) && st.Settle?
    ensures Grown(s, Apply(s, st))
  {
  }

  lemma LateGrows(s: State, st: Step)
    requires Enabled(s, st) && Late(st)
    ensures Grown(s, Apply(s, st))
  {
  }

  lemma StepGrows(s: State, st: Step)
    requires Enabled(s, st)
    ensures Grown(s, Apply(s, st))
  {
    if Early(st) {
      EarlyGrows(s, st);
    } else if st.Settle? {
      SettleGrows(s, st);
    } else if Middle(st) {
      LogOrBuryGrows(s, st);
    } else if Late(st) {
      LateGrows(s, st);
    }
  }

  lemma BackingGrows(s: State, s': State, id: string, e: Event)
    requires Grown(s, s') && Backed(s, id, e)
    ensures Backed(s', id, e)
  {
    forall n | 1 <= n <= e.attemptCount
      ensures HasRow(s'.attempts, id, n)
    {
      assert HasRow(s.attempts, id, n);
    }
  }

  lemma WorkerGrows(s: State, s': State, me: Worker, inserts: bool)
    requires Grown(s, s') && WorkerOk(s, me, inserts)
    ensures WorkerOk(s', me, inserts)
  {
    if me.At? && inserts {
      forall n | 1 <= n <= me.ev.attemptCount
        ensures HasRow(s'.attempts, me.id, n)
      {
        assert HasRow(s.attempts, me.id, n);
      }
      if me.pc.Logged? {
        assert HasRow(s.attempts, me.id, me.ev.attemptCount + 1);
      }
    }
  }

  /** A worker that moved on, other than to having logged or buried, needs nothing new. */
  predicate MovedOn(me: Worker, me': Worker) {
    me'.At? ==> me.At? && me'.id == me.id && me'.ev == me.ev && !me'.pc.Logged? && !me'.pc.Buried?
  }

  lemma MostStepsMoveOn(s: State, st: Step)
    requires Enabled(s, st) && ByWorker(st) && !st.Fetch? && !st.Log? && !st.Bury?
    ensures MovedOn(s.workers[st.w], Apply(s, st).workers[st.w])
  {
    if Early(st) {
      EarlyMovesOn(s, st);
    } else if Middle(st) {
      MiddleMovesOn(s, st);
    } else {
      LateMovesOn(s, st);
    }
  }

  lemma EarlyMovesOn(s: State, st: Step)
    requires Enabled(s, st) && Early(st) && !st.Fetch?
    ensures MovedOn(s.workers[st.w], Apply(s, st).workers[st.w])
  {
  }

  lemma MiddleMovesOn(s: State, st: Step)
    requires Enabled(s, st) && Middle(st) && !st.Log? && !st.Bury?
    ensures MovedOn(s.workers[st.w], Apply(s, st).workers[st.w])
  {
  }

  lemma LateMovesOn(s: State, st: Step)
    requires Enabled(s, st) && Late(st)
    ensures MovedOn(s.workers[st.w], Apply(s, st).workers[st.w])
  {
  }

  lemma MovingOnKeepsOk(s: State, me: Worker, me': Worker, inserts: bool)
    requires WorkerOk(s, me, inserts) && MovedOn(me, me')
    ensures WorkerOk(s, me', inserts)
  {
  }

  lemma FetchKeepsOk(s: State, w: nat, id: string, inserts: bool)
    requires AllOk(s, inserts) && Enabled(s, Fetch(w, id))
    ensures WorkerOk(Apply(s, Fetch(w, id)), Apply(s, Fetch(w, id)).workers[w], inserts)
  {
    assert EventOk(s, id, s.events[id], inserts);
  }

  lemma LogKeepsOk(s: State, w: nat, stored: bool, inserts: bool)
    requires AllOk(s, inserts) && Enabled(s, Log(w, stored)) && (inserts ==> stored)
    ensures WorkerOk(Apply(s, Log(w, stored)), Apply(s, Log(w, stored)).workers[w], inserts)
  {
    var me := s.workers[w];
    var s' := Apply(s, Log(w, stored));
    WorkerGrows(s, s', me, inserts);
    if inserts {
      var row := Attempt(me.id, me.ev.endpoint, me.ev.attemptCount + 1, me.pc.reply, s.now);
      assert s'.attempts[|s.attempts|] == row && row in s'.attempts;
      assert HasRow(s'.attempts, me.id, me.ev.attemptCount + 1);
    }
  }

  lemma BuryKeepsOk(s: State, w: nat, stored: bool, inserts: bool)
    requires AllOk(s, inserts) && Enabled(s, Bury(w, stored)) && (inserts ==> stored)
    ensures WorkerOk(Apply(s, Bury(w, stored)), Apply(s, Bury(w, stored)).workers[w], inserts)
  {
    var me := s.workers[w];
    var s' := Apply(s, Bury(w, stored));
    WorkerGrows(s, s', me, inserts);
    if inserts {
      var letter := NewLetter(me.id, me.ev, me.pc.reason, me.pc.code);
      assert s'.deadLetters[|s.deadLetters|] == letter && letter in s'.deadLetters;
    }
  }

  /** The worker that took the step is still in order. */
  lemma ActorKeepsOk(s: State, st: Step, inserts: bool)
    requires AllOk(s, inserts) && Enabled(s, st) && ByWorker(st) && (inserts ==> InsertsStored(st))
    ensures WorkerOk(Apply(s, st), Apply(s, st).workers[st.w], inserts)
  {
    if st.Fetch? {
      FetchKeepsOk(s, st.w, st.id, inserts);
    } else if st.Log? {
      LogKeepsOk(s, st.w, st.stored, inserts);
    } else if st.Bury? {
      BuryKeepsOk(s, st.w, st.stored, inserts);
    } else {
      var s' := Apply(s, st);
      StepGrows(s, st);
      WorkerGrows(s, s', s.workers[st.w], inserts);
      MostStepsMoveOn(s, st);
      MovingOnKeepsOk(s', s.workers[st.w], s'.workers[st.w], inserts);
    }
  }

  lemma OthersStay(s: State, st: Step, v: nat)
    requires Enabled(s, st) && v < |s.workers| && (ByWorker(st) ==> v != st.w)
    ensures |Apply(s, st).workers| == |s.workers| && Apply(s, st).workers[v] == s.workers[v]
  {
    if Early(st) {
      OthersStayEarly(s, st, v);
    } else if Middle(st) {
      OthersStayMiddle(s, st, v);
    } else if Late(st) {
      OthersStayLate(s, st, v);
    }
  }

  lemma OthersStayEarly(s: State, st: Step, v: nat)
    requires Enabled(s, st) && v < |s.workers| && Early(st) && v != st.w
    ensures |Apply(s, st).workers| == |s.workers| && Apply(s, st).workers[v] == s.workers[v]
  {
  }

  lemma OthersStayMiddle(s: State, st: Step, v: nat)
    requires Enabled(s, st) && v < |s.workers| && Middle(st) && v != st.w
    ensures |Apply(s, st).workers| == |s.workers| && Apply(s, st).workers[v] == s.workers[v]
  {
  }

  lemma OthersStayLate(s: State, st: Step, v: nat)
    requires Enabled(s, st) && v < |s.workers| && Late(st) && v != st.w
    ensures |Apply(s, st).workers| == |s.workers| && Apply(s, st).workers[v] == s.workers[v]
  {
  }

  lemma WorkersStayOk(s: State, st: Step, inserts: bool)
    requires AllOk(s, inserts) && Enabled(s, st) && (inserts ==> InsertsStored(st))
    ensures var s' := Apply(s, st);
            forall v :: 0 <= v < |s'.workers| ==> WorkerOk(s', s'.workers[v], inserts)
  {
    var s' := Apply(s, st);
    forall v | 0 <= v < |s'.workers|
      ensures WorkerOk(s', s'.workers[v], inserts)
    {
      if ByWorker(st) && v == st.w {
        ActorKeepsOk(s, st, inserts);
      } else {
        OthersStay(s, st, v);
        StepGrows(s, st);
        WorkerGrows(s, s', s.workers[v], inserts);
      }
    }
  }

  /** What one step may do to one row: nothing, create it, mark it, or settle it from a worker's snapshot. */
  ghost predicate RowMoves(s: State, st: Step, id: string, e': Event)
    requires Enabled(s, st)
  {
    || (id in s.events && e' == s.events[id])
    || (st.Insert? && id == st.id && id !in s.events && e' == st.e)
    || (id in s.events && e' == s.events[id].(status := Queued))
    || (id in s.events && st.Settle? && id == s.workers[st.w].id && s.workers[st.w].pc.reply.Success()
        && e' == s.events[id].(status := Delivered))
    || (id in s.events && st.Settle? && id == s.workers[st.w].id
        && s.workers[st.w].ev.attemptCount + 1 < s.workers[st.w].ev.maxAttempts
        && e'.nextRetryAt.Some?
        && e' == s.events[id].(status := Retrying, attemptCount := s.workers[st.w].ev.attemptCount + 1,
                               nextRetryAt := e'.nextRetryAt))
    || (id in s.events && st.MarkFailed? && id == s.workers[st.w].id && e' == s.events[id].(status := Failed))
  }

  lemma RowMoveOf(s: State, st: Step, id: string)
    requires Enabled(s, st) && id in Apply(s, st).events
    ensures RowMoves(s, st, id, Apply(s, st).events[id])
  {
  }

  lemma RowStaysOk(s: State, st: Step, id: string, e': Event, inserts: bool)
    requires AllOk(s, inserts) && Enabled(s, st)
    requires RowMoves(s, st, id, e') && (inserts ==> InsertsStored(st))
    ensures EventOk(s, id, e', inserts)
  {
    if id in s.events {
      assert EventOk(s, id, s.events[id], inserts);
    }
    if st.Settle? || st.MarkFailed? {
      assert WorkerOk(s, s.workers[st.w], inserts);
    }
  }

  lemma EventsStayOk(s: State, st: Step, inserts: bool)
    requires AllOk(s, inserts) && Enabled(s, st) && (inserts ==> InsertsStored(st))
    ensures var s' := Apply(s, st);
            forall id :: id in s'.events ==> EventOk(s', id, s'.events[id], inserts)
  {
    var s' := Apply(s, st);
    StepGrows(s, st);
    forall id | id in s'.events
      ensures EventOk(s', id, s'.events[id], inserts)
    {
      RowMoveOf(s, st, id);
      RowStaysOk(s, st, id, s'.events[id], inserts);
      if inserts {
        BackingGrows(s, s', id, s'.events[id]);
      }
    }
  }

  lemma StepKeepsOk(s: State, st: Step, inserts: bool)
    requires AllOk(s, inserts) && Enabled(s, st) && (inserts ==> InsertsStored(st))
    ensures AllOk(Apply(s, st), inserts)
  {
    WorkersStayOk(s, st, inserts);
    EventsStayOk(s, st, inserts);
  }

  lemma {:induction false} RunKeepsOk(n: nat, r: Run, k: nat, inserts: bool)
    requires Legal(n, r) && k < |r.states|
    requires inserts ==> forall i :: 0 <= i < |r.steps| ==> InsertsStored(r.steps[i])
    ensures AllOk(r.states[k], inserts)
  {
    if k > 0 {
      RunKeepsOk(n, r, k - 1, inserts);
      assert inserts ==> InsertsStored(r.steps[k - 1]);
      StepKeepsOk(r.states[k - 1], r.steps[k - 1], inserts);
    }
  }

  /** In every reachable state, with lost writes, crashes, repeated messages and expired locks: the stored
      count stays below the maximum, and a retrying event has been tried and has a retry time. */
  lemma BudgetSurvives(n: nat, r: Run, k: nat, id: string)
    requires Legal(n, r) && k < |r.states| && id in r.states[k].events
    ensures var e := r.states[k].events[id];
            && 0 <= e.attemptCount < e.maxAttempts == MAX_ATTEMPTS
            && (e.status == Retrying ==> e.attemptCount >= 1 && e.nextRetryAt.Some?)
  {
    RunKeepsOk(n, r, k, false);
    assert EventOk(r.states[k], id, r.states[k].events[id], false);
  }

  /** If inserts are stored, the tables back what a row claims, however stale the snapshot it was written
      from: a count of k has attempt rows 1 to k, delivered has a success, failed has a dead letter. */
  lemma ClaimsAreBacked(n: nat, r: Run, k: nat, id: string)
    requires Legal(n, r) && k < |r.states| && id in r.states[k].events
    requires forall i :: 0 <= i < |r.steps| ==> InsertsStored(r.steps[i])
    ensures var s, e := r.states[k], r.states[k].events[id];
            && (forall m :: 1 <= m <= e.attemptCount ==> HasRow(s.attempts, id, m))
            && (e.status == Delivered ==> HasSuccess(s.attempts, id))
            && (e.status == Failed ==> HasLetter(s.deadLetters, id, e))
  {
    RunKeepsOk(n, r, k, true);
    assert EventOk(r.states[k], id, r.states[k].events[id], true);
  }
}
