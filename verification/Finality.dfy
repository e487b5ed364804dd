/** When a resolved status is final and an event is never sent again although calls interleave: the exact
    conditions, for every state of any number of workers. */
module Finality {
  import opened Prelude
  import opened Domain
  import opened Interleaving
  import opened Lock
  import Lifecycle

  /** The reply settles the event: a success, or the failure of the last attempt the worker knows of. */
  predicate Conclusive(me: Worker, reply: Reply)
    requires me.At?
  {
    reply.Success() || me.ev.attemptCount + 1 >= me.ev.maxAttempts
  }

  /** All the worker may still do to the row is to write what is there. */
  predicate Harmless(me: Worker, e: Event)
    requires me.At?
  {
    match me.pc
    case Leaving => true
    case Deleting => true
    case Burying(_, _) => e.status == Failed
    case Buried => e.status == Failed
    case Answered(reply) => Conclusive(me, reply) && e.status == if reply.Success() then Delivered else Failed
    case Logged(reply) => Conclusive(me, reply) && e.status == if reply.Success() then Delivered else Failed
    case _ => false
  }

  /** The worker has sent what it is going to send, and will leave the event resolved. */
  predicate PastSending(me: Worker)
    requires me.At?
  {
    match me.pc
    case Leaving => true
    case Deleting => true
    case Burying(_, _) => true
    case Buried => true
    case Answered(reply) => Conclusive(me, reply)
    case Logged(reply) => Conclusive(me, reply)
    case _ => false
  }

  /** Resolved, no queue mark outstanding, and every worker at the event harmless. */
  ghost predicate Final(s: State, id: string) {
    && id in s.events && s.events[id].Resolved() && id !in s.marks
    && forall w :: 0 <= w < |s.workers| && s.workers[w].At? && s.workers[w].id == id ==>
         Harmless(s.workers[w], s.events[id])
  }

  /** Resolved, no queue mark outstanding, and every worker at the event past sending. */
  ghost predicate Sealed(s: State, id: string) {
    && id in s.events && s.events[id].Resolved() && id !in s.marks
    && forall w :: 0 <= w < |s.workers| && s.workers[w].At? && s.workers[w].id == id ==> PastSending(s.workers[w])
  }

  // Kept by every step ---------------------------------------------------------------------------------

  lemma EarlyKeepsFinal(s: State, st: Step, id: string)
    requires Final(s, id) && Enabled(s, st) && Early(st)
    ensures Final(Apply(s, st), id) && Apply(s, st).events[id] == s.events[id]
  {
  }

  lemma LogOrBuryKeepsFinal(s: State, st: Step, id: string)
    requires Final(s, id) && Enabled(s, st) && (st.Log? || st.Bury?)
    ensures Final(Apply(s, st), id) && Apply(s, st).events[id] == s.events[id]
  {
  }

  lemma SettleKeepsFinal(s: State, st: Step, id: string)
    requires Final(s, id) && Enabled(s, st) && st.Settle?
    ensures Final(Apply(s, st), id) && Apply(s, st).events[id] == s.events[id]
  {
  }

  lemma LateKeepsFinal(s: State, st: Step, id: string)
    requires Final(s, id) && Enabled(s, st) && Late(st)
    ensures Final(Apply(s, st), id) && Apply(s, st).events[id] == s.events[id]
  {
  }

  lemma StepKeepsFinal(s: State, st: Step, id: string)
    requires Final(s, id) && Enabled(s, st)
    ensures Final(Apply(s, st), id) && Apply(s, st).events[id] == s.events[id]
  {
    if Early(st) {
      EarlyKeepsFinal(s, st, id);
    } else if st.Settle? {
      SettleKeepsFinal(s, st, id);
    } else if Middle(st) {
      LogOrBuryKeepsFinal(s, st, id);
    } else if Late(st) {
      LateKeepsFinal(s, st, id);
    }
  }

  lemma EarlyKeepsSealed(s: State, st: Step, id: string)
    requires Sealed(s, id) && Enabled(s, st) && Early(st)
    ensures Sealed(Apply(s, st), id)
  {
  }

  lemma LogOrBuryKeepsSealed(s: State, st: Step, id: string)
    requires Sealed(s, id) && Enabled(s, st) && (st.Log? || st.Bury?)
    ensures Sealed(Apply(s, st), id)
  {
  }

  lemma SettleKeepsSealed(s: State, st: Step, id: string)
    requires Sealed(s, id) && Enabled(s, st) && st.Settle?
    ensures Sealed(Apply(s, st), id)
  {
  }

  lemma LateKeepsSealed(s: State, st: Step, id: string)
    requires Sealed(s, id) && Enabled(s, st) && Late(st)
    ensures Sealed(Apply(s, st), id)
  {
  }

  lemma StepKeepsSealed(s: State, st: Step, id: string)
    requires Sealed(s, id) && Enabled(s, st)
    ensures Sealed(Apply(s, st), id)
  {
    if Early(st) {
      EarlyKeepsSealed(s, st, id);
    } else if st.Settle? {
      SettleKeepsSealed(s, st, id);
    } else if Middle(st) {
      LogOrBuryKeepsSealed(s, st, id);
    } else if Late(st) {
      LateKeepsSealed(s, st, id);
    }
  }

  /** Along every run from a final state the row never changes, and nobody is sending the event. */
  lemma {:induction false} FinalForGood(r: Run, k: nat, id: string)
    requires Linked(r) && k < |r.states| && Final(r.states[0], id)
    ensures Final(r.states[k], id) && r.states[k].events[id] == r.states[0].events[id]
    ensures !BeingSent(r.states[k], id)
  {
    if k > 0 {
      FinalForGood(r, k - 1, id);
      StepKeepsFinal(r.states[k - 1], r.steps[k - 1], id);
    }
  }

  lemma {:induction false} SealedForGood(r: Run, k: nat, id: string)
    requires Linked(r) && k < |r.states| && Sealed(r.states[0], id)
    ensures Sealed(r.states[k], id) && !BeingSent(r.states[k], id)
  {
    if k > 0 {
      SealedForGood(r, k - 1, id);
      StepKeepsSealed(r.states[k - 1], r.steps[k - 1], id);
    }
  }

  // And otherwise some run breaks it --------------------------------------------------------------------

  ghost predicate BeingSent(s: State, id: string) {
    exists w: nat :: IsSending(s, w) && s.workers[w].id == id
  }

  /** What a run may lead to: another row of the event, or a worker sending it. */
  datatype Goal = RowChanges(id: string, row: Event) | IsSent(id: string)

  ghost predicate Met(g: Goal, s: State) {
    match g
    case RowChanges(id, row) => id in s.events && s.events[id] != row
    case IsSent(id) => BeingSent(s, id)
  }

  ghost predicate Can(s: State, g: Goal) {
    exists r: Run :: Linked(r) && r.states[0] == s && Met(g, Last(r))
  }

  lemma Already(s: State, g: Goal)
    requires Met(g, s)
    ensures Can(s, g)
  {
    assert Linked(Run([s], [])) && Last(Run([s], [])) == s;
  }

  lemma Before(s: State, st: Step, g: Goal)
    requires Enabled(s, st) && Can(Apply(s, st), g)
    ensures Can(s, g)
  {
    var r: Run :| Linked(r) && r.states[0] == Apply(s, st) && Met(g, Last(r));
    PrependIsLinked(s, st, r);
  }

  lemma PrependIsLinked(s: State, st: Step, r: Run)
    requires Enabled(s, st) && Linked(r) && r.states[0] == Apply(s, st)
    ensures var r' := Run([s] + r.states, [st] + r.steps);
            Linked(r') && r'.states[0] == s && Last(r') == Last(r)
  {
    var r' := Run([s] + r.states, [st] + r.steps);
    forall i | 0 <= i < |r'.steps|
      ensures Enabled(r'.states[i], r'.steps[i]) && r'.states[i + 1] == Apply(r'.states[i], r'.steps[i])
    {
      assert r'.states[i + 1] == r.states[i];
      if i > 0 {
        assert r'.steps[i] == r.steps[i - 1] && r'.states[i] == r.states[i - 1];
      }
    }
  }

  predicate AtPc(s: State, w: nat, id: string) { Busy(s, w) && s.workers[w].id == id && id in s.events }

  lemma BuriedChanges(s: State, w: nat, id: string)
    requires AtPc(s, w, id) && s.workers[w].pc.Buried? && s.events[id].status == Delivered
    ensures Can(s, RowChanges(id, s.events[id]))
  {
    var g := RowChanges(id, s.events[id]);
    Already(Apply(s, MarkFailed(w, true)), g);
    Before(s, MarkFailed(w, true), g);
  }

  lemma BuryingChanges(s: State, w: nat, id: string)
    requires AtPc(s, w, id) && s.workers[w].pc.Burying? && s.events[id].status == Delivered
    ensures Can(s, RowChanges(id, s.events[id]))
  {
    BuriedChanges(Apply(s, Bury(w, true)), w, id);
    Before(s, Bury(w, true), RowChanges(id, s.events[id]));
  }

  lemma LoggedChanges(s: State, w: nat, id: string)
    requires AtPc(s, w, id) && s.workers[w].pc.Logged? && s.events[id].Resolved()
    requires !Harmless(s.workers[w], s.events[id])
    ensures Can(s, RowChanges(id, s.events[id]))
  {
    var g, st := RowChanges(id, s.events[id]), Settle(w, DEFAULT_RETRY_BASE, 0, true);
    if !s.workers[w].pc.reply.Success() && Conclusive(s.workers[w], s.workers[w].pc.reply) {
      BuryingChanges(Apply(s, st), w, id);
    } else {
      Already(Apply(s, st), g);
    }
    Before(s, st, g);
  }

  lemma AnsweredChanges(s: State, w: nat, id: string)
    requires AtPc(s, w, id) && s.workers[w].pc.Answered? && s.events[id].Resolved()
    requires !Harmless(s.workers[w], s.events[id])
    ensures Can(s, RowChanges(id, s.events[id]))
  {
    LoggedChanges(Apply(s, Log(w, true)), w, id);
    Before(s, Log(w, true), RowChanges(id, s.events[id]));
  }

  /** A delivered event's request may still fail, a failed event's may still succeed. */
  lemma SendingChanges(s: State, w: nat, id: string)
    requires AtPc(s, w, id) && s.workers[w].pc.Sending? && s.events[id].Resolved()
    ensures Can(s, RowChanges(id, s.events[id]))
  {
    var st := Answer(w, Reply(if s.events[id].status == Failed then 200 else 500, None));
    AnsweredChanges(Apply(s, st), w, id);
    Before(s, st, RowChanges(id, s.events[id]));
  }

  /** Either goal is met by sending: another attempt may change a resolved row. */
  ghost predicate MetBySending(s: State, id: string, g: Goal)
    requires id in s.events
  {
    g == IsSent(id) || (s.events[id].Resolved() && g == RowChanges(id, s.events[id]))
  }

  lemma SendingMeets(s: State, w: nat, id: string, g: Goal)
    requires AtPc(s, w, id) && s.workers[w].pc.Sending? && MetBySending(s, id, g)
    ensures Can(s, g)
  {
    if g.IsSent? {
      assert IsSending(s, w);
      Already(s, g);
    } else {
      SendingChanges(s, w, id);
    }
  }

  lemma AdmittedMeets(s: State, w: nat, id: string, g: Goal)
    requires AtPc(s, w, id) && s.workers[w].pc.Admitted? && MetBySending(s, id, g)
    ensures Can(s, g)
  {
    SendingMeets(Apply(s, Look(w, Lifecycle.Active)), w, id, g);
    Before(s, Look(w, Lifecycle.Active), g);
  }

  lemma HoldingMeets(s: State, w: nat, id: string, g: Goal)
    requires AtPc(s, w, id) && s.workers[w].pc.Holding? && MetBySending(s, id, g)
    ensures Can(s, g)
  {
    AdmittedMeets(Apply(s, Admit(w)), w, id, g);
    Before(s, Admit(w), g);
  }

  /** The lock may be held, but not for ever. */
  lemma FetchedMeets(s: State, w: nat, id: string, g: Goal)
    requires AtPc(s, w, id) && s.workers[w].pc.Fetched? && MetBySending(s, id, g)
    ensures Can(s, g)
  {
    var ns: nat := if id in s.locks then Max(0, s.locks[id].expires - s.now) else 0;
    var free := Apply(s, Wait(ns));
    assert !Held(free.locks, id, free.now);
    HoldingMeets(Apply(free, Acquire(w, false)), w, id, g);
    Before(free, Acquire(w, false), g);
    Before(s, Wait(ns), g);
  }

  /** An open event can always be fetched, if by a worker that starts afresh. */
  lemma OpenIsSent(s: State, id: string)
    requires id in s.events && !s.events[id].Resolved() && |s.workers| >= 1
    ensures Can(s, IsSent(id))
  {
    var free := Apply(s, Crash(0));
    FetchedMeets(Apply(free, Fetch(0, id)), 0, id, IsSent(id));
    Before(free, Fetch(0, id), IsSent(id));
    Before(s, Crash(0), IsSent(id));
  }

  lemma MarkedIsSent(s: State, id: string)
    requires id in s.events && id in s.marks && |s.workers| >= 1
    ensures Can(s, IsSent(id))
  {
    OpenIsSent(Apply(s, Mark(id, true)), id);
    Before(s, Mark(id, true), IsSent(id));
  }

  /** A failure that is not the last one the worker knows of reopens the event. */
  lemma InconclusiveIsSent(s: State, w: nat, id: string)
    requires AtPc(s, w, id) && (s.workers[w].pc.Answered? || s.workers[w].pc.Logged?)
    requires !Conclusive(s.workers[w], s.workers[w].pc.reply)
    ensures Can(s, IsSent(id))
    decreases s.workers[w].pc.Answered?
  {
    if s.workers[w].pc.Answered? {
      InconclusiveIsSent(Apply(s, Log(w, true)), w, id);
      Before(s, Log(w, true), IsSent(id));
    } else {
      var st := Settle(w, DEFAULT_RETRY_BASE, 0, true);
      OpenIsSent(Apply(s, st), id);
      Before(s, st, IsSent(id));
    }
  }

  lemma HarmfulChanges(s: State, w: nat, id: string)
    requires AtPc(s, w, id) && s.events[id].Resolved() && !Harmless(s.workers[w], s.events[id])
    ensures Can(s, RowChanges(id, s.events[id]))
  {
    var g := RowChanges(id, s.events[id]);
    match s.workers[w].pc {
      case Fetched => FetchedMeets(s, w, id, g);
      case Holding => HoldingMeets(s, w, id, g);
      case Admitted => AdmittedMeets(s, w, id, g);
      case Sending => SendingMeets(s, w, id, g);
      case Answered(_) => AnsweredChanges(s, w, id);
      case Logged(_) => LoggedChanges(s, w, id);
      case Burying(_, _) => BuryingChanges(s, w, id);
      case Buried => BuriedChanges(s, w, id);
      case _ =>
    }
  }

  lemma NotPastSendingIsSent(s: State, w: nat, id: string)
    requires AtPc(s, w, id) && !PastSending(s.workers[w])
    ensures Can(s, IsSent(id))
  {
    match s.workers[w].pc {
      case Fetched => FetchedMeets(s, w, id, IsSent(id));
      case Holding => HoldingMeets(s, w, id, IsSent(id));
      case Admitted => AdmittedMeets(s, w, id, IsSent(id));
      case Sending => SendingMeets(s, w, id, IsSent(id));
      case Answered(_) => InconclusiveIsSent(s, w, id);
      case Logged(_) => InconclusiveIsSent(s, w, id);
      case _ =>
    }
  }

  // The exact conditions --------------------------------------------------------------------------------

  /** In any state whatever, a resolved row is final, so that no run can ever change it, if and only if no queue
      mark for it is outstanding and every worker at the event is leaving, or about to write what the row says:
      giving up a failed event, storing the success of a delivered one. */
  lemma ResolvedIsFinalIff(s: State, id: string)
    requires id in s.events && s.events[id].Resolved()
    ensures Final(s, id) <==> !Can(s, RowChanges(id, s.events[id]))
  {
    var g := RowChanges(id, s.events[id]);
    if Final(s, id) {
      forall r: Run | Linked(r) && r.states[0] == s
        ensures !Met(g, Last(r))
      {
        FinalForGood(r, |r.steps|, id);
      }
    } else if id in s.marks {
      Already(Apply(s, Mark(id, true)), g);
      Before(s, Mark(id, true), g);
    } else {
      var w :| 0 <= w < |s.workers| && s.workers[w].At? && s.workers[w].id == id
               && !Harmless(s.workers[w], s.events[id]);
      HarmfulChanges(s, w, id);
    }
  }

  /** And an event is being sent by nobody, now and in every run from here, if and only if it is resolved, no
      queue mark for it is outstanding, and every worker at it has sent what it will send and is going to leave
      it resolved, perhaps the other way. */
  lemma NeverSentAgainIff(s: State, id: string)
    requires id in s.events && |s.workers| >= 1
    ensures Sealed(s, id) <==> !Can(s, IsSent(id))
  {
    if Sealed(s, id) {
      forall r: Run | Linked(r) && r.states[0] == s
        ensures !Met(IsSent(id), Last(r))
      {
        SealedForGood(r, |r.steps|, id);
      }
    } else if !s.events[id].Resolved() {
      OpenIsSent(s, id);
    } else if id in s.marks {
      MarkedIsSent(s, id);
    } else {
      var w :| 0 <= w < |s.workers| && s.workers[w].At? && s.workers[w].id == id && !PastSending(s.workers[w]);
      NotPastSendingIsSent(s, w, id);
    }
  }
}
