/** The dispatcher fleet command by command: any number of workers, each reading the event before it takes
    the lock, against Create and the scheduler, which publish first and mark queued later. Any message may
    arrive any number of times, so a worker may fetch any event at any moment, and what the breaker says is
    left open. */
module Interleaving {
  import opened Prelude
  import opened Domain
  import opened Lock
  import Backoff
  import Lifecycle

  datatype Pc =
    | Fetched                // row read and found unresolved; lock not asked for yet
    | Holding                // lock granted
    | Admitted               // breaker passed
    | Sending                // endpoint found active; HTTP request under way
    | Answered(reply: Reply) // reply received
    | Logged(reply: Reply)   // attempt row written
    | Burying(reason: Reason, code: int) // about to write the dead letter
    | Buried                 // about to mark the event failed
    | Leaving                // about to read the lock for release
    | Deleting               // saw its own value there; about to delete the key

  /** A worker's program counter, its message, its snapshot of the row and its lock value. */
  datatype Worker = Idle | At(pc: Pc, id: string, ev: Event, token: nat, deadline: int)
  {
    /** Between the granted lock and the end of its release. */
    predicate Critical() { At? && pc != Fetched }
  }

  /** `tokens` counts the lock values drawn so far; `marks` are the UPDATEs to queued still outstanding. */
  datatype State = State(now: int, events: map<string, Event>, attempts: seq<Attempt>,
                         deadLetters: seq<DeadLetter>, locks: Locks, workers: seq<Worker>,
                         tokens: nat, marks: multiset<string>)

  function Start(n: nat): State {
    State(0, map[], [], [], map[], seq(n, _ => Idle), 0, multiset{})
  }

  datatype Step =
    | Insert(id: string, e: Event, published: bool)
    | Republish(id: string)
    | Mark(id: string, stored: bool)
    | Fetch(w: nat, id: string)
    | Acquire(w: nat, fails: bool)
    | Admit(w: nat)
    | GiveUp(w: nat)
    | Look(w: nat, target: Lifecycle.Target)
    | Answer(w: nat, reply: Reply)
    | Log(w: nat, stored: bool)
    | Settle(w: nat, base: RetryBase, draw: nat, stored: bool)
    | Bury(w: nat, stored: bool)
    | MarkFailed(w: nat, stored: bool)
    | CheckOwner(w: nat, fails: bool)
    | Delete(w: nat, lost: bool)
    | Crash(w: nat)
    | Wait(ns: nat)

  predicate Busy(s: State, w: nat) { w < |s.workers| && s.workers[w].At? }

  predicate Fresh(e: Event) {
    e.status == Pending && e.attemptCount == 0 && e.maxAttempts == MAX_ATTEMPTS && e.nextRetryAt == None
  }

  predicate Enabled(s: State, st: Step) {
    match st
    case Insert(id, e, _) => id !in s.events && Fresh(e)
    case Republish(id) => id in s.events && Lifecycle.Due(s.events[id], s.now)
    case Mark(id, _) => id in s.marks
    case Fetch(w, id) => w < |s.workers| && s.workers[w].Idle? && id in s.events && !s.events[id].Resolved()
    case Acquire(w, _) => Busy(s, w) && s.workers[w].pc.Fetched?
    case Admit(w) => Busy(s, w) && s.workers[w].pc.Holding?
    case GiveUp(w) => Busy(s, w) && s.workers[w].pc.Holding?
    case Look(w, _) => Busy(s, w) && s.workers[w].pc.Admitted?
    case Answer(w, _) => Busy(s, w) && s.workers[w].pc.Sending?
    case Log(w, _) => Busy(s, w) && s.workers[w].pc.Answered?
    case Settle(w, _, _, _) => Busy(s, w) && s.workers[w].pc.Logged?
    case Bury(w, _) => Busy(s, w) && s.workers[w].pc.Burying?
    case MarkFailed(w, _) => Busy(s, w) && s.workers[w].pc.Buried?
    case CheckOwner(w, _) => Busy(s, w) && s.workers[w].pc.Leaving?
    case Delete(w, _) => Busy(s, w) && s.workers[w].pc.Deleting?
    case Crash(w) => w < |s.workers|
    case Wait(_) => true
  }

  function Move(s: State, w: nat, pc: Pc): State
    requires w < |s.workers| && s.workers[w].At?
  {
    s.(workers := s.workers[w := s.workers[w].(pc := pc)])
  }

  function Free(s: State, w: nat): State
    requires w < |s.workers|
  {
    s.(workers := s.workers[w := Idle])
  }

  /** An UPDATE of one row: nothing happens if it is lost or the row is gone. */
  function Write(s: State, id: string, e: Event, stored: bool): State {
    if stored && id in s.events then s.(events := s.events[id := e]) else s
  }

  function SetStatus(s: State, id: string, status: Status, stored: bool): State {
    if id in s.events then Write(s, id, s.events[id].(status := status), stored) else s
  }

  function Apply(s: State, st: Step): State
    requires Enabled(s, st)
  {
    match st
    case Insert(id, e, published) =>
      s.(events := s.events[id := e], marks := if published then s.marks + multiset{id} else s.marks)
    case Republish(id) => s.(marks := s.marks + multiset{id})
    case Mark(id, stored) => SetStatus(s.(marks := s.marks - multiset{id}), id, Queued, stored)
    case Fetch(w, id) => s.(workers := s.workers[w := At(Fetched, id, s.events[id], 0, 0)])
    case Acquire(w, fails) =>
      var me := s.workers[w];
      var drawn := s.(tokens := s.tokens + 1);
      if fails || Held(s.locks, me.id, s.now) then Free(drawn, w)
      else
        drawn.(locks := AfterAcquire(s.locks, me.id, s.tokens, s.now, LOCK_TTL),
               workers := s.workers[w := At(Holding, me.id, me.ev, s.tokens, s.now + LOCK_TTL)])
    case Admit(w) => Move(s, w, Admitted)
    case GiveUp(w) => Move(s, w, Leaving)
    case Look(w, target) =>
      (match target
       case Unreadable => Move(s, w, Leaving)
       case NotFound => Move(s, w, Burying(EndpointNotFound, 0))
       case Inactive => Move(s, w, Burying(EndpointInactive, 0))
       case Active => Move(s, w, Sending))
    case Answer(w, reply) => Move(s, w, Answered(reply))
    case Log(w, stored) =>
      var me := s.workers[w];
      var row := Attempt(me.id, me.ev.endpoint, me.ev.attemptCount + 1, me.pc.reply, s.now);
      Move(if stored then s.(attempts := s.attempts + [row]) else s, w, Logged(me.pc.reply))
    case Settle(w, base, draw, stored) =>
      var me := s.workers[w];
      if me.pc.reply.Success() then Move(SetStatus(s, me.id, Delivered, stored), w, Leaving)
      else if me.ev.attemptCount + 1 >= me.ev.maxAttempts
      then Move(s, w, Burying(FailureReason(me.pc.reply), me.pc.reply.statusCode))
      else if me.id in s.events
      then
        var count: int32 := me.ev.attemptCount + 1;
        var retry := s.events[me.id].(status := Retrying, attemptCount := count,
                                      nextRetryAt := Some(s.now + Backoff.Drawn(count, base, draw)));
        Move(Write(s, me.id, retry, stored), w, Leaving)
      else Move(s, w, Leaving)
    case Bury(w, stored) =>
      var me := s.workers[w];
      var letter := NewLetter(me.id, me.ev, me.pc.reason, me.pc.code);
      Move(if stored then s.(deadLetters := s.deadLetters + [letter]) else s, w, Buried)
    case MarkFailed(w, stored) => Move(SetStatus(s, s.workers[w].id, Failed, stored), w, Leaving)
    case CheckOwner(w, fails) =>
      var me := s.workers[w];
      if !fails && Owns(s.locks, me.id, me.token, s.now) then Move(s, w, Deleting) else Free(s, w)
    case Delete(w, lost) =>
      Free(if lost then s else s.(locks := s.locks - {s.workers[w].id}), w)
    case Crash(w) => Free(s, w)
    case Wait(ns) => s.(now := s.now + ns)
  }

  /** States with the steps between them. */
  datatype Run = Run(states: seq<State>, steps: seq<Step>)

  /** Every step was possible where it was taken, and led to the next state. */
  ghost predicate Linked(r: Run) {
    && |r.states| == |r.steps| + 1
    && forall i {:trigger r.steps[i]} :: 0 <= i < |r.steps| ==>
         Enabled(r.states[i], r.steps[i]) && r.states[i + 1] == Apply(r.states[i], r.steps[i])
  }

  /** A run of n workers, idle at first. */
  ghost predicate Legal(n: nat, r: Run) { Linked(r) && r.states[0] == Start(n) }

  function Last(r: Run): State
    requires r.states != []
  {
    r.states[|r.states| - 1]
  }

  function Extend(r: Run, st: Step): Run
    requires r.states != [] && Enabled(Last(r), st)
  {
    Run(r.states + [Apply(Last(r), st)], r.steps + [st])
  }

  lemma ExtendIsLinked(r: Run, st: Step)
    requires Linked(r) && Enabled(Last(r), st)
    ensures Linked(Extend(r, st)) && Last(Extend(r, st)) == Apply(Last(r), st)
    ensures Extend(r, st).states[0] == r.states[0]
  {
    var r' := Extend(r, st);
    forall i | 0 <= i < |r'.steps|
      ensures Enabled(r'.states[i], r'.steps[i]) && r'.states[i + 1] == Apply(r'.states[i], r'.steps[i])
    {
      if i < |r.steps| {
        assert r'.steps[i] == r.steps[i];
      }
    }
  }

  predicate IsSending(s: State, w: nat) { Busy(s, w) && s.workers[w].pc.Sending? }

  predicate ByWorker(st: Step) { !st.Insert? && !st.Republish? && !st.Mark? && !st.Wait? }

  /** The steps up to the reply, those that act on it, and those that end the message. */
  predicate Early(st: Step) { st.Fetch? || st.Acquire? || st.Admit? || st.GiveUp? || st.Look? || st.Answer? }

  predicate Middle(st: Step) { st.Log? || st.Settle? || st.Bury? }

  predicate Late(st: Step) { st.MarkFailed? || st.CheckOwner? || st.Delete? || st.Crash? }
}
