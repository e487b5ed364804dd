/** What the lock promises: one event's handlings exclude each other as long as none of its own holders has
    outstayed the lock, and not a nanosecond longer. */
module Exclusion {
  import opened Interleaving
  import opened Lock
  import Lifecycle

  /** No worker at the event has kept its lock `slack` beyond its time. */
  predicate TimelyAt(s: State, id: string, slack: int) {
    forall w :: 0 <= w < |s.workers| && s.workers[w].Critical() && s.workers[w].id == id ==>
      s.now < s.workers[w].deadline + slack
  }

  /** At most one worker is between the grant and the end of the release for the event. */
  ghost predicate ExclusiveAt(s: State, id: string) {
    forall v, w :: 0 <= v < w < |s.workers| && s.workers[v].Critical() && s.workers[w].Critical() ==>
      !(s.workers[v].id == id && s.workers[w].id == id)
  }

  /** Every holder's value differs from every other's, and the key of the event holds the value of whoever is
      under its lock. */
  ghost predicate LocksAgree(s: State, id: string) {
    && (forall w :: 0 <= w < |s.workers| && s.workers[w].Critical() ==> s.workers[w].token < s.tokens)
    && (forall v, w :: 0 <= v < w < |s.workers| && s.workers[v].Critical() && s.workers[w].Critical() ==>
          s.workers[v].token != s.workers[w].token)
    && (forall w :: 0 <= w < |s.workers| && s.workers[w].Critical() && s.workers[w].id == id ==>
          id in s.locks && s.locks[id] == Lease(s.workers[w].token, s.workers[w].deadline))
  }

  lemma AcquireKeepsLocks(s: State, w: nat, fails: bool, id: string)
    requires LocksAgree(s, id) && TimelyAt(s, id, 0) && Enabled(s, Acquire(w, fails))
    ensures LocksAgree(Apply(s, Acquire(w, fails)), id)
  {
  }

  /** Only worker w changed, and it stayed under its lock or dropped out. */
  ghost predicate Local(s: State, s': State, w: nat) {
    && w < |s.workers| == |s'.workers|
    && s'.locks == s.locks && s'.tokens >= s.tokens
    && (forall v :: 0 <= v < |s.workers| && v != w ==> s'.workers[v] == s.workers[v])
    && (s'.workers[w].Critical() ==>
          var me, me' := s.workers[w], s'.workers[w];
          me.Critical() && me'.id == me.id && me'.token == me.token && me'.deadline == me.deadline)
  }

  lemma LocalKeepsLocks(s: State, s': State, w: nat, id: string)
    requires LocksAgree(s, id) && Local(s, s', w)
    ensures LocksAgree(s', id)
  {
  }

  lemma EarlyIsLocal(s: State, st: Step)
    requires Enabled(s, st) && Early(st) && !st.Acquire?
    ensures Local(s, Apply(s, st), st.w)
  {
  }

  lemma LogOrBuryIsLocal(s: State, st: Step)
    requires Enabled(s, st) && (st.Log? || st.Bury?)
    ensures Local(s, Apply(s, st), st.w)
  {
  }

  lemma SettleIsLocal(s: State, st: Step)
    requires Enabled(s, st) && st.Settle?
    ensures Local(s, Apply(s, st), st.w)
  {
  }

  lemma LateIsLocal(s: State, st: Step)
    requires Enabled(s, st) && Late(st) && !st.Delete?
    ensures Local(s, Apply(s, st), st.w)
  {
  }

  lemma StepIsLocal(s: State, st: Step)
    requires Enabled(s, st) && ByWorker(st) && !st.Acquire? && !st.Delete?
    ensures Local(s, Apply(s, st), st.w)
  {
    if Early(st) {
      EarlyIsLocal(s, st);
    } else if st.Settle? {
      SettleIsLocal(s, st);
    } else if Middle(st) {
      LogOrBuryIsLocal(s, st);
    } else {
      LateIsLocal(s, st);
    }
  }

  lemma DeleteKeepsLocks(s: State, w: nat, lost: bool, id: string)
    requires LocksAgree(s, id) && Enabled(s, Delete(w, lost))
    ensures LocksAgree(Apply(s, Delete(w, lost)), id)
  {
    assert s.workers[w].Critical();
    forall v | 0 <= v < |s.workers| && v != w && s.workers[v].Critical() && s.workers[v].id == id
      ensures s.workers[w].id != id
    {
      assert s.workers[v].token != s.workers[w].token;
    }
  }

  /** Whatever workers at other events do, and however late they are. */
  lemma StepKeepsLocks(s: State, st: Step, id: string)
    requires LocksAgree(s, id) && TimelyAt(s, id, 0) && Enabled(s, st)
    ensures LocksAgree(Apply(s, st), id)
  {
    if st.Acquire? {
      AcquireKeepsLocks(s, st.w, st.fails, id);
    } else if st.Delete? {
      DeleteKeepsLocks(s, st.w, st.lost, id);
    } else if ByWorker(st) {
      StepIsLocal(s, st);
      LocalKeepsLocks(s, Apply(s, st), st.w, id);
    } else {
      var s' := Apply(s, st);
      assert s'.workers == s.workers && s'.locks == s.locks && s'.tokens == s.tokens;
    }
  }

  lemma {:induction false} RunKeepsLocks(n: nat, r: Run, k: nat, id: string)
    requires Legal(n, r) && k < |r.states| && forall i :: 0 <= i < k ==> TimelyAt(r.states[i], id, 0)
    ensures LocksAgree(r.states[k], id)
  {
    if k > 0 {
      RunKeepsLocks(n, r, k - 1, id);
      StepKeepsLocks(r.states[k - 1], r.steps[k - 1], id);
    }
  }

  /** As long as nobody at the event has outstayed its lock, no two workers are between the grant and the end of
      the release for it, although a release is two commands and whatever goes wrong at other events: two
      deliveries of one event never overlap. */
  lemma MutualExclusion(n: nat, r: Run, k: nat, id: string)
    requires Legal(n, r) && k < |r.states| && forall i :: 0 <= i < k ==> TimelyAt(r.states[i], id, 0)
    ensures ExclusiveAt(r.states[k], id)
    ensures forall v, w :: 0 <= v < w < |r.states[k].workers| && IsSending(r.states[k], v) && IsSending(r.states[k], w) ==>
              !(r.states[k].workers[v].id == id && r.states[k].workers[w].id == id)
  {
    RunKeepsLocks(n, r, k, id);
  }

  // And no longer ---------------------------------------------------------------------------------------

  /** The first k states of the run had nobody at the event late by more than the slack allows. */
  ghost predicate TimelyUpTo(r: Run, k: nat, id: string, slack: int)
    requires k <= |r.states|
  {
    forall i :: 0 <= i < k ==> TimelyAt(r.states[i], id, slack)
  }

  /** n workers can get to s while nobody at the event is late by more than the slack allows. */
  ghost predicate Gets(n: nat, s: State, id: string, slack: int) {
    exists r: Run :: Legal(n, r) && Last(r) == s && TimelyUpTo(r, |r.steps|, id, slack)
  }

  lemma Next(n: nat, s: State, st: Step, s': State, id: string, slack: int)
    requires Gets(n, s, id, slack) && TimelyAt(s, id, slack) && Enabled(s, st) && s' == Apply(s, st)
    ensures Gets(n, s', id, slack)
  {
    var r: Run :| Legal(n, r) && Last(r) == s && TimelyUpTo(r, |r.steps|, id, slack);
    ExtendIsLinked(r, st);
    var r' := Extend(r, st);
    forall i | 0 <= i < |r'.steps|
      ensures TimelyAt(r'.states[i], id, slack)
    {
      if i < |r.steps| {
        assert r'.states[i] == r.states[i];
      }
    }
    assert Legal(n, r') && Last(r') == s' && TimelyUpTo(r', |r'.steps|, id, slack);
  }

  const EVENT := Lifecycle.NewEvent("", "", "", "", "")

  /** n workers, all idle but the first two. */
  function Two(n: nat, a: Worker, b: Worker): (ws: seq<Worker>)
    requires n >= 2
    ensures |ws| == n && ws[0] == a && ws[1] == b && forall w :: 2 <= w < n ==> ws[w] == Idle
  {
    [a, b] + seq(n - 2, _ => Idle)
  }

  lemma SetTwo(n: nat, a: Worker, b: Worker, x: Worker)
    requires n >= 2
    ensures Two(n, a, b)[0 := x] == Two(n, x, b) && Two(n, a, b)[1 := x] == Two(n, a, x)
  {
  }

  /** One new event, its queue mark outstanding, and two workers at it. */
  function Meeting(n: nat, now: int, id: string, locks: Locks, a: Worker, b: Worker, tokens: nat): State
    requires n >= 2
  {
    State(now, map[id := EVENT], [], [], locks, Two(n, a, b), tokens, multiset{id})
  }

  function Reader(id: string): Worker { At(Fetched, id, EVENT, 0, 0) }

  function Holder(id: string, token: nat, deadline: int): Worker { At(Holding, id, EVENT, token, deadline) }

  lemma BothGetRow(n: nat, id: string, slack: int)
    requires n >= 2
    ensures Gets(n, Meeting(n, 0, id, map[], Reader(id), Reader(id), 0), id, slack)
  {
    var s0 := Start(n);
    assert Legal(n, Run([s0], [])) && Last(Run([s0], [])) == s0;
    assert s0.workers == Two(n, Idle, Idle) && map[][id := EVENT] == map[id := EVENT];
    var s1 := Meeting(n, 0, id, map[], Idle, Idle, 0);
    Next(n, s0, Insert(id, EVENT, true), s1, id, slack);
    SetTwo(n, Idle, Idle, Reader(id));
    var s2 := Meeting(n, 0, id, map[], Reader(id), Idle, 0);
    Next(n, s1, Fetch(0, id), s2, id, slack);
    SetTwo(n, Reader(id), Idle, Reader(id));
    Next(n, s2, Fetch(1, id), Meeting(n, 0, id, map[], Reader(id), Reader(id), 0), id, slack);
  }

  /** The first worker holds the lock up to the very end of its time. */
  lemma FirstStays(n: nat, id: string, slack: int)
    requires n >= 2 && slack >= 1
    ensures Gets(n, Meeting(n, LOCK_TTL, id, map[id := Lease(0, LOCK_TTL)], Holder(id, 0, LOCK_TTL), Reader(id), 1), id, slack)
  {
    BothGetRow(n, id, slack);
    var locks := map[id := Lease(0, LOCK_TTL)];
    assert map[][id := Lease(0, LOCK_TTL)] == locks;
    SetTwo(n, Reader(id), Reader(id), Holder(id, 0, LOCK_TTL));
    var s1 := Meeting(n, 0, id, locks, Holder(id, 0, LOCK_TTL), Reader(id), 1);
    Next(n, Meeting(n, 0, id, map[], Reader(id), Reader(id), 0), Acquire(0, false), s1, id, slack);
    Next(n, s1, Wait(LOCK_TTL), Meeting(n, LOCK_TTL, id, locks, Holder(id, 0, LOCK_TTL), Reader(id), 1), id, slack);
  }

  lemma SlackBreaksExclusion(n: nat, id: string, slack: int) returns (s: State)
    requires n >= 2 && slack >= 1
    ensures Gets(n, s, id, slack) && !ExclusiveAt(s, id)
  {
    FirstStays(n, id, slack);
    var a, b := Holder(id, 0, LOCK_TTL), Holder(id, 1, 2 * LOCK_TTL);
    var locks := map[id := Lease(0, LOCK_TTL)];
    SetTwo(n, a, Reader(id), b);
    s := Meeting(n, LOCK_TTL, id, locks[id := Lease(1, 2 * LOCK_TTL)], a, b, 2);
    Next(n, Meeting(n, LOCK_TTL, id, locks, a, Reader(id), 1), Acquire(1, false), s, id, slack);
    assert s.workers[0].Critical() && s.workers[1].Critical();
  }

  /** The condition is exact: for any two or more workers and any event, the runs in which nobody at the event
      keeps its lock beyond its time plus the slack all exclude, if and only if there is no slack. */
  lemma ExclusionIffNoSlack(n: nat, id: string, slack: int)
    requires n >= 2
    ensures (forall r: Run, k: nat :: Legal(n, r) && k < |r.states| && TimelyUpTo(r, k, id, slack) ==>
               ExclusiveAt(r.states[k], id))
            <==> slack <= 0
  {
    if slack <= 0 {
      forall r: Run, k: nat | Legal(n, r) && k < |r.states| && TimelyUpTo(r, k, id, slack)
        ensures ExclusiveAt(r.states[k], id)
      {
        assert forall i :: 0 <= i < k ==> TimelyAt(r.states[i], id, slack);
        MutualExclusion(n, r, k, id);
      }
    } else {
      var s := SlackBreaksExclusion(n, id, slack);
      var r: Run :| Legal(n, r) && Last(r) == s && TimelyUpTo(r, |r.steps|, id, slack);
      var k: nat := |r.steps|;
      assert Legal(n, r) && k < |r.states| && TimelyUpTo(r, k, id, slack) && !ExclusiveAt(r.states[k], id);
    }
  }
}
