/** The two models of the dispatcher agree: what a worker of the Interleaving can do to the tables when it is
    left undisturbed from its read to its release is exactly what Dispatch steps of the Lifecycle can do. */
module Refinement {
  import opened Prelude
  import opened Domain
  import opened Interleaving
  import L = Lifecycle
  import CB = CircuitBreaker
  import Lock

  /** The tables both models have in common. */
  datatype Tables = Tables(now: int, events: map<string, Event>, attempts: seq<Attempt>, deadLetters: seq<DeadLetter>)

  function Fine(s: State): Tables { Tables(s.now, s.events, s.attempts, s.deadLetters) }

  function Coarse(t: L.State): Tables { Tables(t.now, t.events, t.attempts, t.deadLetters) }

  function LoggedAt(t: Tables, id: string, ev: Event, env: L.Env): Tables {
    if env.attemptStored
    then t.(attempts := t.attempts + [Attempt(id, ev.endpoint, ev.attemptCount + 1, env.reply, t.now)])
    else t
  }

  /** The tables after the reply has come in and been logged. */
  function WithAttempt(t: Tables, id: string, ev: Event, env: L.Env): Tables {
    LoggedAt(t.(now := t.now + env.took), id, ev, env)
  }

  function WithRow(t: Tables, id: string, row: Event, env: L.Env): Tables {
    if env.statusStored then t.(events := t.events[id := row]) else t
  }

  function WithLetter(t: Tables, id: string, ev: Event, reason: Reason, code: int, env: L.Env): Tables {
    if env.letterStored then t.(deadLetters := t.deadLetters + [NewLetter(id, ev, reason, code)]) else t
  }

  /** The tables after an event was given up. */
  function Buried(t: Tables, id: string, ev: Event, reason: Reason, code: int, env: L.Env): Tables {
    WithRow(WithLetter(t, id, ev, reason, code, env), id, ev.(status := Failed), env)
  }

  /** The tables after a logged reply was acted on. */
  function Settled(t: Tables, id: string, ev: Event, env: L.Env): Tables {
    if L.Exhausts(ev, env) then Buried(t, id, ev, FailureReason(env.reply), env.reply.statusCode, env)
    else WithRow(t, id, L.Answered(ev, env, t.now), env)
  }

  /** Worker w is at pc with this event, and everyone else is where they were in s. */
  ghost predicate Doing(s: State, s': State, w: nat, pc: Pc, id: string, ev: Event) {
    && w < |s.workers| == |s'.workers| && s'.marks == s.marks
    && (forall v :: 0 <= v < |s.workers| && v != w ==> s'.workers[v] == s.workers[v])
    && s'.workers[w].At? && s'.workers[w].pc == pc && s'.workers[w].id == id && s'.workers[w].ev == ev
  }

  ghost predicate Done(s: State, s': State, w: nat) {
    && w < |s.workers| == |s'.workers| && s'.marks == s.marks
    && (forall v :: 0 <= v < |s.workers| && v != w ==> s'.workers[v] == s.workers[v])
    && s'.workers[w].Idle?
  }

  // A worker on its own ----------------------------------------------------------------------------

  /** A step worker w may take between its fetch and the end of its message; time passes only while it sends. */
  predicate Own(p: State, st: Step, w: nat) {
    if st.Wait? then IsSending(p, w) else ByWorker(st) && st.w == w && !st.Fetch? && !st.Crash?
  }

  /** A run of worker w alone, from fetching a message of the event on. */
  ghost predicate Handles(r: Run, w: nat, id: string) {
    && Linked(r) && w < |r.states[0].workers| && r.states[0].workers[w].Idle?
    && forall i {:trigger r.steps[i]} :: 0 <= i < |r.steps| ==>
         if i == 0 then r.steps[i] == Fetch(w, id) else Own(r.states[i], r.steps[i], w)
  }

  /** The same up to the end of the message. */
  ghost predicate Alone(r: Run, w: nat, id: string) {
    Handles(r, w, id) && w < |Last(r).workers| && Last(r).workers[w].Idle?
  }

  /** The breaker of the other model admits an attempt at the event. */
  predicate Admits(c: CB.Config, t: L.State, id: string) {
    id in t.events && CB.Passes(c, t.breaker, t.events[id].endpoint, Unix(t.now))
  }

  /** If the run passes the breaker, then `admits`. */
  ghost predicate PassesOnlyIf(r: Run, admits: bool) {
    forall i :: 0 <= i < |r.steps| && r.steps[i].Admit? ==> admits
  }

  // Every solo run is a dispatch ---------------------------------------------------------------------

  /** What a Dispatch step leaves in the shared tables, verdict by verdict. */
  function Outcome(c: CB.Config, t: L.State, id: string, env: L.Env): Tables {
    match L.Judge(c, t, id, env)
    case Bury(reason, code) => Buried(Coarse(t), id, t.events[id], reason, code, env)
    case Deliver => Settled(WithAttempt(Coarse(t), id, t.events[id], env), id, t.events[id], env)
    case _ => Coarse(t)
  }

  lemma DispatchTables(c: CB.Config, t: L.State, id: string, env: L.Env)
    ensures Coarse(L.Process(c, t, id, env)) == Outcome(c, t, id, env)
  {
    if id in t.events {
      assert t.events[id := t.events[id]] == t.events;
    }
  }

  /** How far a Dispatch step that meets `env` has got when the worker is at pc with these tables. */
  ghost predicate Stage(c: CB.Config, t: L.State, id: string, env: L.Env, pc: Pc, f: Tables)
    requires id in t.events
  {
    var ev, v := t.events[id], L.Judge(c, t, id, env);
    && !ev.Resolved() && !env.readFails
    && match pc
       case Fetched => f == Coarse(t)
       case Holding => env.locked && !env.breakerReadFails && f == Coarse(t)
       case Admitted => env.locked && !env.breakerReadFails && Admits(c, t, id) && f == Coarse(t)
       case Sending => v == L.Deliver && f == Coarse(t).(now := t.now + env.took)
       case Answered(reply) => v == L.Deliver && reply == env.reply && f == Coarse(t).(now := t.now + env.took)
       case Logged(reply) => v == L.Deliver && reply == env.reply && f == WithAttempt(Coarse(t), id, ev, env)
       case Burying(reason, code) => Given(c, t, id, env, reason, code) && f == BeforeLetter(c, t, id, env)
       case Buried => exists reason, code :: Given(c, t, id, env, reason, code)
                        && f == WithLetter(BeforeLetter(c, t, id, env), id, ev, reason, code, env)
       case _ => f == Outcome(c, t, id, env)
  }

  /** The dispatch gives the event up, and why. */
  predicate Given(c: CB.Config, t: L.State, id: string, env: L.Env, reason: Reason, code: int)
    requires id in t.events
  {
    var v := L.Judge(c, t, id, env);
    || v == L.Bury(reason, code)
    || (v == L.Deliver && L.Exhausts(t.events[id], env)
        && reason == FailureReason(env.reply) && code == env.reply.statusCode)
  }

  function BeforeLetter(c: CB.Config, t: L.State, id: string, env: L.Env): Tables
    requires id in t.events
  {
    if L.Judge(c, t, id, env) == L.Deliver then WithAttempt(Coarse(t), id, t.events[id], env) else Coarse(t)
  }

  /** The run so far is a dispatch half way, with the other workers and the marks as they were. */
  ghost predicate Explained(c: CB.Config, t: L.State, id: string, env: L.Env, s: State, p: State, w: nat) {
    && w < |s.workers| == |p.workers| && p.marks == s.marks
    && (forall v :: 0 <= v < |s.workers| && v != w ==> p.workers[v] == s.workers[v])
    && match p.workers[w]
       case Idle => Fine(p) == Outcome(c, t, id, env)
       case At(pc, x, ev, _, _) => x == id && id in t.events && ev == t.events[id] && Stage(c, t, id, env, pc, Fine(p))
  }

  /** What the step shows of the environment. */
  function Learn(p: State, st: Step, env: L.Env): L.Env
    requires Enabled(p, st)
  {
    match st
    case Acquire(w, fails) =>
      env.(locked := !fails && !Lock.Held(p.locks, p.workers[w].id, p.now), breakerReadFails := false)
    case GiveUp(_) => env.(breakerReadFails := true)
    case Look(_, target) => env.(target := target, took := 0)
    case Wait(ns) => env.(took := env.took + ns)
    case Answer(_, reply) => env.(reply := reply)
    case Log(_, stored) => env.(attemptStored := stored)
    case Settle(_, base, draw, stored) => env.(retryBase := base, draw := draw, statusStored := stored)
    case Bury(_, stored) => env.(letterStored := stored)
    case MarkFailed(_, stored) => env.(statusStored := stored)
    case _ => env
  }

  lemma BeginIsExplained(c: CB.Config, t: L.State, id: string, env: L.Env, s: State, p: State, w: nat, st: Step)
    requires Explained(c, t, id, env, s, p, w) && p.workers[w].At? && Enabled(p, st) && Own(p, st, w)
    requires st.Acquire? || st.Admit? || st.GiveUp?
    requires st.Admit? ==> Admits(c, t, id)
    ensures Explained(c, t, id, Learn(p, st, env), s, Apply(p, st), w)
  {
  }

  lemma SendIsExplained(c: CB.Config, t: L.State, id: string, env: L.Env, s: State, p: State, w: nat, st: Step)
    requires Explained(c, t, id, env, s, p, w) && p.workers[w].At? && Enabled(p, st) && Own(p, st, w)
    requires st.Look? || st.Wait? || st.Answer?
    ensures Explained(c, t, id, Learn(p, st, env), s, Apply(p, st), w)
  {
  }

  lemma LogIsExplained(c: CB.Config, t: L.State, id: string, env: L.Env, s: State, p: State, w: nat, st: Step)
    requires Explained(c, t, id, env, s, p, w) && p.workers[w].At? && Enabled(p, st) && Own(p, st, w) && st.Log?
    ensures Explained(c, t, id, Learn(p, st, env), s, Apply(p, st), w)
  {
  }

  /** Acting on a logged reply completes the dispatch, unless it was the last attempt allowed. */
  lemma SettleCompletes(c: CB.Config, t: L.State, id: string, env: L.Env, f: Tables, reply: Reply,
                        base: RetryBase, draw: nat, stored: bool)
    requires id in t.events && Stage(c, t, id, env, Logged(reply), f)
    ensures var env' := env.(retryBase := base, draw := draw, statusStored := stored);
            if L.Exhausts(t.events[id], env')
            then Stage(c, t, id, env', Burying(FailureReason(reply), reply.statusCode), f)
            else WithRow(f, id, L.Answered(t.events[id], env', f.now), env') == Outcome(c, t, id, env')
    ensures f.events == t.events && !t.events[id].Resolved()
  {
  }

  lemma SettleStep(s: State, p: State, w: nat, id: string, ev: Event, env: L.Env)
    requires Doing(s, p, w, Logged(env.reply), id, ev) && id in p.events && p.events[id] == ev
    ensures var p' := Apply(p, Settle(w, env.retryBase, env.draw, env.statusStored));
            if L.Exhausts(ev, env)
            then Doing(s, p', w, Burying(FailureReason(env.reply), env.reply.statusCode), id, ev)
                 && Fine(p') == Fine(p)
            else Doing(s, p', w, Leaving, id, ev)
                 && Fine(p') == WithRow(Fine(p), id, L.Answered(ev, env, p.now), env)
  {
  }

  lemma SettleIsExplained(c: CB.Config, t: L.State, id: string, env: L.Env, s: State, p: State, w: nat, st: Step)
    requires Explained(c, t, id, env, s, p, w) && p.workers[w].At? && Enabled(p, st) && Own(p, st, w) && st.Settle?
    ensures Explained(c, t, id, Learn(p, st, env), s, Apply(p, st), w)
  {
    SettleCompletes(c, t, id, env, Fine(p), env.reply, st.base, st.draw, st.stored);
    SettleStep(s, p, w, id, t.events[id], Learn(p, st, env));
  }

  lemma BuryIsExplained(c: CB.Config, t: L.State, id: string, env: L.Env, s: State, p: State, w: nat, st: Step)
    requires Explained(c, t, id, env, s, p, w) && p.workers[w].At? && Enabled(p, st) && Own(p, st, w) && st.Bury?
    ensures Explained(c, t, id, Learn(p, st, env), s, Apply(p, st), w)
  {
    var reason, code := p.workers[w].pc.reason, p.workers[w].pc.code;
    assert Given(c, t, id, Learn(p, st, env), reason, code);
  }

  lemma GivenOutcome(c: CB.Config, t: L.State, id: string, env: L.Env, reason: Reason, code: int)
    requires id in t.events && Given(c, t, id, env, reason, code)
    ensures var ev := t.events[id];
            Outcome(c, t, id, env) ==
              WithRow(WithLetter(BeforeLetter(c, t, id, env), id, ev, reason, code, env), id, ev.(status := Failed), env)
  {
  }

  /** Marking a given-up event failed completes the dispatch. */
  lemma MarkCompletes(c: CB.Config, t: L.State, id: string, env: L.Env, f: Tables, stored: bool)
    requires id in t.events && Stage(c, t, id, env, Pc.Buried, f)
    ensures var env' := env.(statusStored := stored);
            WithRow(f, id, t.events[id].(status := Failed), env') == Outcome(c, t, id, env')
    ensures f.events == t.events && !t.events[id].Resolved()
  {
    var reason, code :| Given(c, t, id, env, reason, code)
      && f == WithLetter(BeforeLetter(c, t, id, env), id, t.events[id], reason, code, env);
    var env' := env.(statusStored := stored);
    assert Given(c, t, id, env', reason, code);
    GivenOutcome(c, t, id, env', reason, code);
  }

  lemma MarkIsExplained(c: CB.Config, t: L.State, id: string, env: L.Env, s: State, p: State, w: nat, st: Step)
    requires Explained(c, t, id, env, s, p, w) && p.workers[w].At? && Enabled(p, st) && Own(p, st, w) && st.MarkFailed?
    ensures Explained(c, t, id, Learn(p, st, env), s, Apply(p, st), w)
  {
    MarkCompletes(c, t, id, env, Fine(p), st.stored);
    var p' := Apply(p, st);
    assert Fine(p') == WithRow(Fine(p), id, t.events[id].(status := Failed), Learn(p, st, env));
  }

  lemma LeaveIsExplained(c: CB.Config, t: L.State, id: string, env: L.Env, s: State, p: State, w: nat, st: Step)
    requires Explained(c, t, id, env, s, p, w) && p.workers[w].At? && Enabled(p, st) && Own(p, st, w)
    requires st.CheckOwner? || st.Delete?
    ensures Explained(c, t, id, Learn(p, st, env), s, Apply(p, st), w)
  {
  }

  lemma StepIsExplained(c: CB.Config, t: L.State, id: string, env: L.Env, s: State, p: State, w: nat, st: Step)
    requires Explained(c, t, id, env, s, p, w) && p.workers[w].At? && Enabled(p, st) && Own(p, st, w)
    requires st.Admit? ==> Admits(c, t, id)
    ensures Explained(c, t, id, Learn(p, st, env), s, Apply(p, st), w)
  {
    match st {
      case Log(_, _) => LogIsExplained(c, t, id, env, s, p, w, st);
      case Settle(_, _, _, _) => SettleIsExplained(c, t, id, env, s, p, w, st);
      case Bury(_, _) => BuryIsExplained(c, t, id, env, s, p, w, st);
      case MarkFailed(_, _) => MarkIsExplained(c, t, id, env, s, p, w, st);
      case CheckOwner(_, _) => LeaveIsExplained(c, t, id, env, s, p, w, st);
      case Delete(_, _) => LeaveIsExplained(c, t, id, env, s, p, w, st);
      case Look(_, _) => SendIsExplained(c, t, id, env, s, p, w, st);
      case Answer(_, _) => SendIsExplained(c, t, id, env, s, p, w, st);
      case Wait(_) => SendIsExplained(c, t, id, env, s, p, w, st);
      case _ => BeginIsExplained(c, t, id, env, s, p, w, st);
    }
  }

  /** An environment nothing has been seen of yet. */
  const UNSEEN := L.Env(false, false, false, false, L.Active, Reply(0, None), 0, DEFAULT_RETRY_BASE, 0,
                        false, CB.NO_FAULTS, false, false, true)

  lemma {:induction false} RunIsExplained(c: CB.Config, t: L.State, id: string, r: Run, w: nat, k: nat)
      returns (env: L.Env)
    requires Handles(r, w, id) && Fine(r.states[0]) == Coarse(t) && PassesOnlyIf(r, Admits(c, t, id))
    requires 1 <= k < |r.states|
    ensures Explained(c, t, id, env, r.states[0], r.states[k], w)
  {
    if k == 1 {
      env := UNSEEN;
      assert r.steps[0] == Fetch(w, id);
    } else {
      env := RunIsExplained(c, t, id, r, w, k - 1);
      var p, st := r.states[k - 1], r.steps[k - 1];
      assert Own(p, st, w) && Enabled(p, st);
      StepIsExplained(c, t, id, env, r.states[0], p, w, st);
      env := Learn(p, st, env);
    }
  }

  /** Whatever the store, the lock, the breaker, the lookup and the endpoint answer, and in the company of any
      other workers: a run of one worker alone, from its fetch to its end, changes the clock and the tables as
      one Dispatch step does, and nothing else but its lock. */
  lemma SoloRunIsDispatch(c: CB.Config, t: L.State, id: string, r: Run, w: nat) returns (env: L.Env)
    requires Alone(r, w, id) && Fine(r.states[0]) == Coarse(t) && PassesOnlyIf(r, Admits(c, t, id))
    ensures Done(r.states[0], Last(r), w)
    ensures Fine(Last(r)) == Coarse(L.Process(c, t, id, env))
  {
    if r.steps == [] {
      env := UNSEEN.(readFails := true);
    } else {
      env := RunIsExplained(c, t, id, r, w, |r.steps|);
    }
    DispatchTables(c, t, id, env);
  }

  // Every dispatch is a solo run ---------------------------------------------------------------------

  /** Worker w, idle in s, can get to p on its own with a message of the event. */
  ghost predicate Reach(s: State, p: State, w: nat, id: string, admits: bool) {
    exists r: Run :: Handles(r, w, id) && r.states[0] == s && Last(r) == p && PassesOnlyIf(r, admits)
  }

  lemma Next(s: State, p: State, w: nat, id: string, admits: bool, st: Step)
    requires Reach(s, p, w, id, admits) && Enabled(p, st) && Own(p, st, w) && s != p
    requires st.Admit? ==> admits
    ensures Reach(s, Apply(p, st), w, id, admits)
  {
    var r: Run :| Handles(r, w, id) && r.states[0] == s && Last(r) == p && PassesOnlyIf(r, admits);
    HandlesOneMore(r, w, id, admits, st);
  }

  lemma HandlesOneMore(r: Run, w: nat, id: string, admits: bool, st: Step)
    requires Handles(r, w, id) && r.steps != [] && PassesOnlyIf(r, admits)
    requires Enabled(Last(r), st) && Own(Last(r), st, w) && (st.Admit? ==> admits)
    ensures var r' := Extend(r, st);
            Handles(r', w, id) && r'.states[0] == r.states[0] && Last(r') == Apply(Last(r), st) && PassesOnlyIf(r', admits)
  {
    ExtendIsLinked(r, st);
    var r' := Extend(r, st);
    forall i | 0 <= i < |r'.steps|
      ensures if i == 0 then r'.steps[i] == Fetch(w, id) else Own(r'.states[i], r'.steps[i], w)
    {
      if i < |r.steps| {
        assert r'.steps[i] == r.steps[i] && r'.states[i] == r.states[i];
      } else {
        assert r'.states[i] == Last(r);
      }
    }
    PassesOneMore(r, admits, st);
  }

  lemma PassesOneMore(r: Run, admits: bool, st: Step)
    requires Linked(r) && Enabled(Last(r), st) && PassesOnlyIf(r, admits) && (st.Admit? ==> admits)
    ensures PassesOnlyIf(Extend(r, st), admits)
  {
    var steps := Extend(r, st).steps;
    forall i | 0 <= i < |steps| && steps[i].Admit?
      ensures admits
    {
      if i < |r.steps| {
        assert steps[i] == r.steps[i];
      }
    }
  }

  lemma Stay(s: State, w: nat, id: string, admits: bool)
    requires w < |s.workers| && s.workers[w].Idle?
    ensures Reach(s, s, w, id, admits)
  {
    assert Handles(Run([s], []), w, id);
  }

  lemma FetchFirst(s: State, w: nat, id: string, admits: bool) returns (p: State)
    requires Ready(s, w, id)
    ensures Reach(s, p, w, id, admits) && Doing(s, p, w, Fetched, id, s.events[id]) && Fine(p) == Fine(s)
    ensures p.locks == s.locks
  {
    var start := Run([s], []);
    ExtendIsLinked(start, Fetch(w, id));
    p := Apply(s, Fetch(w, id));
    assert Handles(Extend(start, Fetch(w, id)), w, id);
  }

  lemma Leave(s: State, p: State, w: nat, id: string, admits: bool, ev: Event) returns (s': State)
    requires Reach(s, p, w, id, admits) && Doing(s, p, w, Leaving, id, ev)
    ensures Reach(s, s', w, id, admits) && Done(s, s', w) && Fine(s') == Fine(p)
  {
    s' := Apply(p, CheckOwner(w, false));
    Next(s, p, w, id, admits, CheckOwner(w, false));
    if s'.workers[w].At? {
      Next(s, s', w, id, admits, Delete(w, false));
      s' := Apply(s', Delete(w, false));
    }
  }

  lemma BuryAndLeave(s: State, p: State, w: nat, id: string, admits: bool, ev: Event, reason: Reason, code: int, env: L.Env)
      returns (s': State)
    requires Reach(s, p, w, id, admits) && Doing(s, p, w, Burying(reason, code), id, ev) && id in p.events && p.events[id] == ev
    ensures Reach(s, s', w, id, admits) && Done(s, s', w) && Fine(s') == Buried(Fine(p), id, ev, reason, code, env)
  {
    Next(s, p, w, id, admits, Bury(w, env.letterStored));
    var p1 := Apply(p, Bury(w, env.letterStored));
    Next(s, p1, w, id, admits, MarkFailed(w, env.statusStored));
    var p2 := Apply(p1, MarkFailed(w, env.statusStored));
    s' := Leave(s, p2, w, id, admits, ev);
  }

  lemma WaitTaken(s: State, p: State, w: nat, id: string, admits: bool, ev: Event, ns: nat) returns (s': State)
    requires Reach(s, p, w, id, admits) && Doing(s, p, w, Sending, id, ev)
    ensures Reach(s, s', w, id, admits) && Doing(s, s', w, Sending, id, ev) && Fine(s') == Fine(p).(now := p.now + ns)
  {
    Next(s, p, w, id, admits, Wait(ns));
    s' := Apply(p, Wait(ns));
  }

  lemma AnswerTaken(s: State, p: State, w: nat, id: string, admits: bool, ev: Event, reply: Reply) returns (s': State)
    requires Reach(s, p, w, id, admits) && Doing(s, p, w, Sending, id, ev)
    ensures Reach(s, s', w, id, admits) && Doing(s, s', w, Answered(reply), id, ev) && Fine(s') == Fine(p)
  {
    Next(s, p, w, id, admits, Answer(w, reply));
    s' := Apply(p, Answer(w, reply));
  }

  /** From the request being sent to the attempt being logged. */
  lemma SendAndLog(s: State, p: State, w: nat, id: string, admits: bool, ev: Event, env: L.Env) returns (s': State)
    requires Reach(s, p, w, id, admits) && Doing(s, p, w, Sending, id, ev)
    ensures Reach(s, s', w, id, admits) && Doing(s, s', w, Logged(env.reply), id, ev)
    ensures Fine(s') == WithAttempt(Fine(p), id, ev, env)
  {
    var p1 := WaitTaken(s, p, w, id, admits, ev, env.took);
    var p2 := AnswerTaken(s, p1, w, id, admits, ev, env.reply);
    s' := LogTaken(s, p2, w, id, admits, ev, env);
  }

  lemma LogTaken(s: State, p: State, w: nat, id: string, admits: bool, ev: Event, env: L.Env) returns (s': State)
    requires Reach(s, p, w, id, admits) && Doing(s, p, w, Answered(env.reply), id, ev)
    ensures Reach(s, s', w, id, admits) && Doing(s, s', w, Logged(env.reply), id, ev)
    ensures Fine(s') == LoggedAt(Fine(p), id, ev, env)
  {
    Next(s, p, w, id, admits, Log(w, env.attemptStored));
    s' := Apply(p, Log(w, env.attemptStored));
  }

  lemma SettleAndLeave(s: State, p: State, w: nat, id: string, admits: bool, ev: Event, env: L.Env) returns (s': State)
    requires Reach(s, p, w, id, admits) && Doing(s, p, w, Logged(env.reply), id, ev) && id in p.events && p.events[id] == ev
    ensures Reach(s, s', w, id, admits) && Done(s, s', w) && Fine(s') == Settled(Fine(p), id, ev, env)
  {
    var st := Settle(w, env.retryBase, env.draw, env.statusStored);
    SettleStep(s, p, w, id, ev, env);
    Next(s, p, w, id, admits, st);
    if L.Exhausts(ev, env) {
      s' := BuryAndLeave(s, Apply(p, st), w, id, admits, ev, FailureReason(env.reply), env.reply.statusCode, env);
    } else {
      s' := Leave(s, Apply(p, st), w, id, admits, ev);
    }
  }

  lemma Begin(s: State, w: nat, id: string, admits: bool) returns (s': State)
    requires Ready(s, w, id) && !Lock.Held(s.locks, id, s.now)
    ensures Reach(s, s', w, id, admits) && Doing(s, s', w, Holding, id, s.events[id]) && Fine(s') == Fine(s)
  {
    var p := FetchFirst(s, w, id, admits);
    Next(s, p, w, id, admits, Acquire(w, false));
    s' := Apply(p, Acquire(w, false));
  }

  ghost predicate Ready(s: State, w: nat, id: string) {
    && w < |s.workers| && s.workers[w].Idle? && id in s.events && !s.events[id].Resolved()
  }

  /** A fetch that finds the lock taken, or Redis silent. */
  lemma SoloLockedOut(s: State, w: nat, id: string, admits: bool) returns (s': State)
    requires Ready(s, w, id)
    ensures Reach(s, s', w, id, admits) && Done(s, s', w) && Fine(s') == Fine(s)
  {
    var p := FetchFirst(s, w, id, admits);
    Next(s, p, w, id, admits, Acquire(w, true));
    s' := Apply(p, Acquire(w, true));
  }

  lemma SoloRefused(s: State, w: nat, id: string, admits: bool) returns (s': State)
    requires Ready(s, w, id) && !Lock.Held(s.locks, id, s.now)
    ensures Reach(s, s', w, id, admits) && Done(s, s', w) && Fine(s') == Fine(s)
  {
    var p := Begin(s, w, id, admits);
    Next(s, p, w, id, admits, GiveUp(w));
    s' := Leave(s, Apply(p, GiveUp(w)), w, id, admits, s.events[id]);
  }

  function AfterLook(target: L.Target): Pc {
    match target
    case Unreadable => Leaving
    case NotFound => Burying(EndpointNotFound, 0)
    case Inactive => Burying(EndpointInactive, 0)
    case Active => Sending
  }

  lemma SoloLook(s: State, w: nat, id: string, target: L.Target) returns (p: State)
    requires Ready(s, w, id) && !Lock.Held(s.locks, id, s.now)
    ensures Reach(s, p, w, id, true) && Doing(s, p, w, AfterLook(target), id, s.events[id]) && Fine(p) == Fine(s)
  {
    p := Begin(s, w, id, true);
    Next(s, p, w, id, true, Admit(w));
    p := Apply(p, Admit(w));
    Next(s, p, w, id, true, Look(w, target));
    p := Apply(p, Look(w, target));
  }

  lemma SoloDelivers(s: State, w: nat, id: string, env: L.Env) returns (s': State)
    requires Ready(s, w, id) && !Lock.Held(s.locks, id, s.now)
    ensures Reach(s, s', w, id, true) && Done(s, s', w)
    ensures Fine(s') == Settled(WithAttempt(Fine(s), id, s.events[id], env), id, s.events[id], env)
  {
    var p := SoloLook(s, w, id, L.Active);
    p := SendAndLog(s, p, w, id, true, s.events[id], env);
    s' := SettleAndLeave(s, p, w, id, true, s.events[id], env);
  }

  lemma DispatchIsReached(c: CB.Config, t: L.State, id: string, env: L.Env, s: State, w: nat) returns (s': State)
    requires w < |s.workers| && s.workers[w].Idle? && Fine(s) == Coarse(t)
    requires env.locked ==> !Lock.Held(s.locks, id, s.now)
    ensures Reach(s, s', w, id, Admits(c, t, id)) && Done(s, s', w)
    ensures Fine(s') == Outcome(c, t, id, env)
  {
    var admits := Admits(c, t, id);
    match L.Judge(c, t, id, env) {
      case Skip =>
        if Ready(s, w, id) {
          s' := SoloLockedOut(s, w, id, admits);
        } else {
          Stay(s, w, id, admits);
          s' := s;
        }
      case Refuse => s' := SoloRefused(s, w, id, admits);
      case Abort =>
        var p := SoloLook(s, w, id, env.target);
        s' := Leave(s, p, w, id, true, s.events[id]);
      case Bury(reason, code) =>
        var p := SoloLook(s, w, id, env.target);
        s' := BuryAndLeave(s, p, w, id, true, s.events[id], reason, code, env);
      case Deliver => s' := SoloDelivers(s, w, id, env);
    }
  }

  /** And the other way round: from any state with worker w idle, in the company of any other workers, every
      Dispatch step is realised by a run of w alone, provided it does not need a lock somebody holds. */
  lemma DispatchIsSoloRun(c: CB.Config, t: L.State, id: string, env: L.Env, s: State, w: nat) returns (r: Run)
    requires w < |s.workers| && s.workers[w].Idle? && Fine(s) == Coarse(t)
    requires env.locked ==> !Lock.Held(s.locks, id, s.now)
    ensures Alone(r, w, id) && r.states[0] == s && PassesOnlyIf(r, Admits(c, t, id))
    ensures Fine(Last(r)) == Coarse(L.Process(c, t, id, env))
  {
    DispatchTables(c, t, id, env);
    var s' := DispatchIsReached(c, t, id, env, s, w);
    r :| Handles(r, w, id) && r.states[0] == s && Last(r) == s' && PassesOnlyIf(r, Admits(c, t, id));
  }

  /** Together: with the event's lock free, what worker w can do to the tables on its own is what one Dispatch
      step can do to them, neither more nor less. */
  lemma SoloRunsAreDispatches(c: CB.Config, t: L.State, id: string, s: State, w: nat, f: Tables)
    requires w < |s.workers| && s.workers[w].Idle? && Fine(s) == Coarse(t) && !Lock.Held(s.locks, id, s.now)
    ensures (exists r :: Alone(r, w, id) && r.states[0] == s && PassesOnlyIf(r, Admits(c, t, id)) && Fine(Last(r)) == f)
            <==> (exists env :: Coarse(L.Process(c, t, id, env)) == f)
  {
    if r :| Alone(r, w, id) && r.states[0] == s && PassesOnlyIf(r, Admits(c, t, id)) && Fine(Last(r)) == f {
      var env := SoloRunIsDispatch(c, t, id, r, w);
      assert Coarse(L.Process(c, t, id, env)) == f;
    }
    if env :| Coarse(L.Process(c, t, id, env)) == f {
      var r := DispatchIsSoloRun(c, t, id, env, s, w);
      assert Alone(r, w, id) && r.states[0] == s && PassesOnlyIf(r, Admits(c, t, id)) && Fine(Last(r)) == f;
    }
  }
}
