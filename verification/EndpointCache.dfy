/** internal/repository/redis/endpoint_cache.go and the dispatcher's getEndpoint: a 60-second cache in front
    of the endpoints table that nothing invalidates. Times are nanoseconds. */
module EndpointCache {
  import opened Prelude
  import Domain

  const CACHE_TTL := 60 * Domain.SECOND

  datatype Endpoint = Endpoint(id: string, tenant: string, url: string, description: string,
                               eventTypes: seq<string>, secret: string, active: bool)

  /** What survives the JSON encoding: everything but the secret. */
  function Redacted(e: Endpoint): Endpoint { e.(secret := "") }

  datatype Entry = Entry(value: Endpoint, expires: int)

  datatype Lookup = Found(endpoint: Endpoint) | Missing | Broken

  /** Which of the four store commands of one lookup fail. */
  datatype Faults = Faults(cacheGet: bool, dbGet: bool, cacheSet: bool)

  const NO_FAULTS := Faults(false, false, false)

  type Rows = map<string, Endpoint>

  /** The endpoints table: every row under its own id. */
  type Table = r: Rows | WellKeyed(r) witness map[]

  type Entries = map<string, Entry>

  predicate Cached(entries: Entries, id: string, now: int) {
    id in entries && now < entries[id].expires
  }

  /** A hit wins; a miss or an unreadable cache falls through to the table. */
  function LookupResult(rows: Rows, entries: Entries, id: string, now: int, f: Faults): Lookup {
    if !f.cacheGet && Cached(entries, id, now) then Found(entries[id].value)
    else if f.dbGet then Broken
    else if id in rows then Found(rows[id])
    else Missing
  }

  function LookupEntries(rows: Rows, entries: Entries, id: string, now: int, f: Faults): Entries {
    if (!f.cacheGet && Cached(entries, id, now)) || f.dbGet || id !in rows || f.cacheSet then entries
    else entries[id := Entry(Redacted(rows[id]), now + CACHE_TTL)]
  }

  class EndpointCache {
    var entries: Entries

    constructor ()
      ensures entries == map[]
    {
      entries := map[];
    }

    /** None is both a miss and an error; the caller treats them alike. */
    method Get(id: string, now: int, fails: bool) returns (hit: Option<Endpoint>)
      ensures hit == if !fails && Cached(entries, id, now) then Some(entries[id].value) else None
    {
      if fails || id !in entries || now >= entries[id].expires {
        return None;
      }
      return Some(entries[id].value);
    }

    method Set(e: Endpoint, now: int, fails: bool)
      modifies this
      ensures entries == if fails then old(entries) else old(entries)[e.id := Entry(Redacted(e), now + CACHE_TTL)]
    {
      if !fails {
        entries := entries[e.id := Entry(Redacted(e), now + CACHE_TTL)];
      }
    }
  }

  class EndpointRepo {
    var rows: Rows

    ghost predicate Valid()
      reads this
    {
      WellKeyed(rows)
    }

    constructor ()
      ensures Valid() && rows == map[]
    {
      rows := map[];
    }

    method GetByID(id: string, fails: bool) returns (r: Lookup)
      ensures r == if fails then Broken else if id in rows then Found(rows[id]) else Missing
    {
      if fails {
        return Broken;
      }
      if id !in rows {
        return Missing;
      }
      return Found(rows[id]);
    }
  }

  predicate WellKeyed(rows: Rows) {
    forall id :: id in rows ==> rows[id].id == id
  }

  /** getEndpoint of the dispatcher. */
  method GetEndpoint(cache: EndpointCache, repo: EndpointRepo, id: string, now: int, f: Faults)
      returns (r: Lookup)
    requires repo.Valid()
    modifies cache
    ensures r == LookupResult(repo.rows, old(cache.entries), id, now, f)
    ensures cache.entries == LookupEntries(repo.rows, old(cache.entries), id, now, f)
  {
    var cached := cache.Get(id, now, f.cacheGet);
    if cached.Some? {
      return Found(cached.value);
    }
    r := repo.GetByID(id, f.dbGet);
    if r.Found? {
      cache.Set(r.endpoint, now, f.cacheSet);
    }
  }

  // Runs ------------------------------------------------------------------------------------------

  /** The table's contents from one instant on. */
  datatype Version = Version(since: int, rows: Rows)

  /** The last version is the current table. */
  datatype State = State(now: int, history: seq<Version>, entries: Entries)

  datatype Step =
    | Store(e: Endpoint)
    | Remove(id: string)
    | Read(id: string, faults: Faults)
    | Wait(ns: nat)

  function Current(s: State): Rows
    requires s.history != []
  {
    s.history[|s.history| - 1].rows
  }

  const START := State(0, [Version(0, map[])], map[])

  function Apply(s: State, st: Step): (s': State)
    requires s.history != []
    ensures s'.history != []
  {
    match st
    case Store(e) => s.(history := s.history + [Version(s.now, Current(s)[e.id := e])])
    case Remove(id) => s.(history := s.history + [Version(s.now, Current(s) - {id})])
    case Read(id, f) => s.(entries := LookupEntries(Current(s), s.entries, id, s.now, f))
    case Wait(ns) => s.(now := s.now + ns)
  }

  function Run(steps: seq<Step>): (s: State)
    ensures s.history != []
  {
    if steps == [] then START else Apply(Run(steps[..|steps| - 1]), steps[|steps| - 1])
  }

  /** Version i of the table was the current one at instant `at`. */
  ghost predicate CurrentAt(history: seq<Version>, i: int, at: int) {
    && 0 <= i < |history| && history[i].since <= at
    && (i + 1 < |history| ==> at <= history[i + 1].since)
  }

  /** At some instant in (from, to] the row of `id` was this endpoint in all but its secret. */
  ghost predicate WasCurrent(history: seq<Version>, id: string, e: Endpoint, from: int, to: int) {
    exists i, at :: from < at <= to && CurrentAt(history, i, at)
                    && id in history[i].rows && history[i].rows[id] == e.(secret := history[i].rows[id].secret)
  }

  ghost predicate Sound(s: State) {
    && s.history != [] && s.history[|s.history| - 1].since <= s.now
    && WellKeyed(Current(s))
    && (forall id {:trigger EntrySound(s, id)} :: id in s.entries ==> EntrySound(s, id))
  }

  lemma HistoryGrows(s: State, v: Version, id: string, e: Endpoint, from: int, to: int)
    requires WasCurrent(s.history, id, e, from, to) && to <= v.since
    ensures WasCurrent(s.history + [v], id, e, from, to)
  {
    var i, at :| from < at <= to && CurrentAt(s.history, i, at)
                 && id in s.history[i].rows && s.history[i].rows[id] == e.(secret := s.history[i].rows[id].secret);
    var longer := s.history + [v];
    assert longer[i] == s.history[i];
    assert CurrentAt(longer, i, at);
  }

  ghost predicate EntrySound(s: State, id: string)
    requires id in s.entries
  {
    var filled := s.entries[id].expires - CACHE_TTL;
    && WasCurrent(s.history, id, s.entries[id].value, filled - 1, Min(filled, s.now))
    && s.entries[id].value.secret == ""
  }

  lemma ChangeKeepsEntry(s: State, v: Version, id: string)
    requires id in s.entries && EntrySound(s, id) && v.since == s.now
    ensures EntrySound(s.(history := s.history + [v]), id)
  {
    var filled := s.entries[id].expires - CACHE_TTL;
    HistoryGrows(s, v, id, s.entries[id].value, filled - 1, Min(filled, s.now));
  }

  lemma WaitKeepsEntry(s: State, ns: nat, id: string)
    requires id in s.entries && EntrySound(s, id)
    ensures EntrySound(s.(now := s.now + ns), id)
  {
  }

  lemma ReadKeepsEntry(s: State, st: Step, id: string)
    requires Sound(s) && st.Read? && id in Apply(s, st).entries
    ensures EntrySound(Apply(s, st), id)
  {
    var s' := Apply(s, st);
    if id in s.entries && s.entries[id] == s'.entries[id] {
      assert EntrySound(s, id);
    } else {
      assert CurrentAt(s'.history, |s'.history| - 1, s.now);
    }
  }

  lemma StepKeepsSound(s: State, st: Step)
    requires Sound(s)
    ensures Sound(Apply(s, st))
  {
    var s' := Apply(s, st);
    forall id | id in s'.entries
      ensures EntrySound(s', id)
    {
      assert id in s.entries ==> EntrySound(s, id);
      match st {
        case Store(e) => ChangeKeepsEntry(s, s'.history[|s.history|], id);
        case Remove(_) => ChangeKeepsEntry(s, s'.history[|s.history|], id);
        case Read(_, _) => ReadKeepsEntry(s, st, id);
        case Wait(ns) => WaitKeepsEntry(s, ns, id);
      }
    }
  }

  lemma {:induction false} RunIsSound(steps: seq<Step>)
    ensures Sound(Run(steps))
    decreases |steps|
  {
    if steps != [] {
      RunIsSound(steps[..|steps| - 1]);
      StepKeepsSound(Run(steps[..|steps| - 1]), steps[|steps| - 1]);
    }
  }

  lemma HitIsRecent(s: State, id: string)
    requires Sound(s) && Cached(s.entries, id, s.now)
    ensures WasCurrent(s.history, id, s.entries[id].value, s.now - CACHE_TTL, s.now)
  {
    assert EntrySound(s, id);
    var filled := s.entries[id].expires - CACHE_TTL;
    var i, at :| filled - 1 < at <= Min(filled, s.now) && CurrentAt(s.history, i, at)
                 && id in s.history[i].rows
                 && s.history[i].rows[id] == s.entries[id].value.(secret := s.history[i].rows[id].secret);
    assert s.now - CACHE_TTL < at <= s.now && CurrentAt(s.history, i, at);
  }

  /** What a lookup answers in a sound state. */
  lemma AnswerIsRecent(s: State, id: string, f: Faults)
    requires Sound(s)
    ensures match LookupResult(Current(s), s.entries, id, s.now, f)
            case Found(e) => WasCurrent(s.history, id, e, s.now - 60_000_000_000, s.now)
            case Missing => id !in Current(s)
            case Broken => f.dbGet
  {
    if !f.cacheGet && Cached(s.entries, id, s.now) {
      HitIsRecent(s, id);
    } else if !f.dbGet && id in Current(s) {
      assert CurrentAt(s.history, |s.history| - 1, s.now);
    }
  }

  /** Whatever updates, deletions, reads and failures came before, a lookup answers with a row that was in
      the table at some instant of the last 60 seconds, in all but its secret; "missing" is said only of a row
      missing now; and no secret is ever kept in the cache. */
  lemma StalenessIsBounded(steps: seq<Step>, id: string, f: Faults)
    ensures var s := Run(steps);
            && (match LookupResult(Current(s), s.entries, id, s.now, f)
                case Found(e) => WasCurrent(s.history, id, e, s.now - 60_000_000_000, s.now)
                case Missing => id !in Current(s)
                case Broken => f.dbGet)
            && (id in s.entries ==> s.entries[id].value.secret == "")
  {
    var s := Run(steps);
    RunIsSound(steps);
    assert id in s.entries ==> EntrySound(s, id);
    AnswerIsRecent(s, id, f);
  }

  // The table under other hands ----------------------------------------------------------------------

  /** What the table became, some time after the change or lookup before. */
  datatype Change = Change(after: nat, rows: Table)

  /** The versions the changes make between `seen` and `until`. */
  function Stamped(seen: int, until: int, changes: seq<Change>): (made: seq<Version>)
    ensures |made| == |changes|
    decreases |changes|
  {
    if changes == [] then []
    else
      var at := Min(seen + changes[0].after, until);
      [Version(at, changes[0].rows)] + Stamped(at, until, changes[1..])
  }

  lemma {:induction false} StampedInOrder(seen: int, until: int, changes: seq<Change>)
    requires seen <= until
    ensures var made := Stamped(seen, until, changes);
            && (changes != [] ==> made[|made| - 1].rows == changes[|changes| - 1].rows)
            && forall i :: 0 <= i < |made| ==> seen <= made[i].since <= until
    decreases |changes|
  {
    if changes != [] {
      StampedInOrder(Min(seen + changes[0].after, until), until, changes[1..]);
    }
  }

  lemma ChangeKeepsSound(s: State, v: Version)
    requires Sound(s) && s.now <= v.since && WellKeyed(v.rows)
    ensures Sound(State(v.since, s.history + [v], s.entries))
  {
    var later := s.(now := v.since);
    var s' := State(v.since, s.history + [v], s.entries);
    forall id | id in s'.entries
      ensures EntrySound(s', id)
    {
      assert EntrySound(s, id);
      WaitKeepsEntry(s, v.since - s.now, id);
      ChangeKeepsEntry(later, v, id);
    }
  }

  lemma {:induction false} ChangesKeepSound(s: State, until: int, changes: seq<Change>)
    requires Sound(s) && s.now <= until
    ensures Sound(State(until, s.history + Stamped(s.now, until, changes), s.entries))
    decreases |changes|
  {
    if changes == [] {
      assert s.history + [] == s.history;
      WaitIsSound(s, until - s.now);
    } else {
      var v := Version(Min(s.now + changes[0].after, until), changes[0].rows);
      ChangeKeepsSound(s, v);
      ChangesKeepSound(State(v.since, s.history + [v], s.entries), until, changes[1..]);
      var rest := Stamped(v.since, until, changes[1..]);
      assert s.history + ([v] + rest) == s.history + [v] + rest;
    }
  }

  /** At some instant in (from, to] the endpoint had a row, switched on or off as said. */
  ghost predicate WasThere(history: seq<Version>, id: string, active: bool, from: int, to: int) {
    exists i, at :: from < at <= to && CurrentAt(history, i, at)
                    && id in history[i].rows && history[i].rows[id].active == active
  }

  lemma CurrentWasThere(history: seq<Version>, id: string, e: Endpoint, from: int, to: int)
    requires WasCurrent(history, id, e, from, to)
    ensures WasThere(history, id, e.active, from, to)
  {
    var i, at :| from < at <= to && CurrentAt(history, i, at)
                 && id in history[i].rows && history[i].rows[id] == e.(secret := history[i].rows[id].secret);
    assert history[i].rows[id].active == e.active;
  }

  lemma {:induction false} WasThereStays(history: seq<Version>, more: seq<Version>, id: string, active: bool, from: int, to: int)
    requires WasThere(history, id, active, from, to) && forall i :: 0 <= i < |more| ==> to <= more[i].since
    ensures WasThere(history + more, id, active, from, to)
  {
    var i, at :| from < at <= to && CurrentAt(history, i, at)
                 && id in history[i].rows && history[i].rows[id].active == active;
    var longer := history + more;
    assert longer[i] == history[i];
    assert i + 1 == |history| && more != [] ==> longer[i + 1] == more[0];
    assert CurrentAt(longer, i, at);
  }

  lemma WaitIsSound(s: State, ns: nat)
    requires Sound(s)
    ensures Sound(s.(now := s.now + ns))
  {
    forall id | id in s.entries
      ensures EntrySound(s.(now := s.now + ns), id)
    {
      assert EntrySound(s, id);
      WaitKeepsEntry(s, ns, id);
    }
  }

  // After a deletion ---------------------------------------------------------------------------------

  predicate Restores(steps: seq<Step>, id: string) {
    exists i :: 0 <= i < |steps| && steps[i].Store? && steps[i].e.id == id
  }

  lemma StepSparesEntry(s: State, st: Step, id: string)
    requires s.history != [] && id !in Current(s) && !(st.Store? && st.e.id == id)
    ensures var s' := Apply(s, st);
            && id !in Current(s') && s.now <= s'.now
            && (id in s'.entries <==> id in s.entries) && (id in s.entries ==> s'.entries[id] == s.entries[id])
  {
  }

  /** Once its row is gone, nothing touches an endpoint's cache entry. */
  lemma {:induction false} EntryOutlivesRow(before: seq<Step>, id: string, after: seq<Step>)
    requires !Restores(after, id)
    ensures var s0, s := Run(before + [Remove(id)]), Run(before + [Remove(id)] + after);
            && id !in Current(s) && s0.now <= s.now
            && (id in s.entries <==> id in s0.entries) && (id in s0.entries ==> s.entries[id] == s0.entries[id])
    decreases |after|
  {
    var begun := before + [Remove(id)];
    if after == [] {
      RunOneMore(before, Remove(id));
      assert begun + after == begun;
    } else {
      var front, last := after[..|after| - 1], after[|after| - 1];
      assert Restores(front, id) ==> Restores(after, id);
      EntryOutlivesRow(before, id, front);
      RunOneMore(begun + front, last);
      assert begun + after == (begun + front) + [last];
      assert !(last.Store? && last.e.id == id);
      StepSparesEntry(Run(begun + front), last, id);
    }
  }

  /** After any run, a deletion, and any further run that does not store the endpoint again: with nothing
      failing, a lookup says missing if and only if the entry there was at the deletion has expired, and until
      then it answers that entry. A minute after the deletion it has. */
  lemma DeletedEndpointIsMissingIff(before: seq<Step>, id: string, after: seq<Step>)
    requires !Restores(after, id)
    ensures var s0, s := Run(before + [Remove(id)]), Run(before + [Remove(id)] + after);
            var answer := LookupResult(Current(s), s.entries, id, s.now, NO_FAULTS);
            && (answer == Missing <==> id !in s0.entries || s0.entries[id].expires <= s.now)
            && (answer != Missing ==> answer == Found(s0.entries[id].value))
            && (s.now >= s0.now + 60_000_000_000 ==> answer == Missing)
  {
    EntryOutlivesRow(before, id, after);
    var s0 := Run(before + [Remove(id)]);
    RunIsSound(before + [Remove(id)]);
    if id in s0.entries {
      assert EntrySound(s0, id);
      assert s0.entries[id].expires <= s0.now + CACHE_TTL;
    }
  }

  // When an update takes effect -------------------------------------------------------------------------

  predicate Changes(st: Step, id: string) {
    (st.Store? && st.e.id == id) || (st.Remove? && st.id == id)
  }

  /** A lookup that cannot read the cache, and so renews the entry from the table. */
  predicate Renews(st: Step, id: string) {
    st.Read? && st.id == id && st.faults.cacheGet && !st.faults.dbGet && !st.faults.cacheSet
  }

  ghost predicate Left(steps: seq<Step>, id: string) {
    forall i :: 0 <= i < |steps| ==> !Changes(steps[i], id)
  }

  ghost predicate Renewed(steps: seq<Step>, id: string) {
    exists i :: 0 <= i < |steps| && Renews(steps[i], id)
  }

  /** The entry is no longer in the way of the row. */
  predicate Expired(entries: Entries, id: string, now: int) {
    id !in entries || entries[id].expires <= now
  }

  /** Since s0, when the row became e: the entry is the old one, or says e after a renewal or an expiry. */
  ghost predicate UpdateSeen(s0: State, s: State, e: Endpoint, renewed: bool) {
    && s.history != [] && s0.now <= s.now && e.id in Current(s) && Current(s)[e.id] == e
    && (|| (!renewed && (e.id in s.entries <==> e.id in s0.entries)
            && (e.id in s.entries ==> s.entries[e.id] == s0.entries[e.id]))
        || (e.id in s.entries && s.entries[e.id].value == Redacted(e) && (renewed || Expired(s0.entries, e.id, s.now))))
  }

  lemma StepSeesUpdate(s0: State, s: State, e: Endpoint, renewed: bool, st: Step)
    requires UpdateSeen(s0, s, e, renewed) && !Changes(st, e.id)
    ensures UpdateSeen(s0, Apply(s, st), e, renewed || Renews(st, e.id))
  {
  }

  lemma {:induction false} RunSeesUpdate(before: seq<Step>, e: Endpoint, after: seq<Step>)
    requires Left(after, e.id)
    ensures UpdateSeen(Run(before + [Store(e)]), Run(before + [Store(e)] + after), e, Renewed(after, e.id))
    decreases |after|
  {
    var begun := before + [Store(e)];
    if after == [] {
      RunOneMore(before, Store(e));
      assert begun + after == begun;
    } else {
      var front, last := after[..|after| - 1], after[|after| - 1];
      RunSeesUpdate(before, e, front);
      RunOneMore(begun + front, last);
      assert begun + after == (begun + front) + [last];
      StepSeesUpdate(Run(begun), Run(begun + front), e, Renewed(front, e.id), last);
      RenewedOneMore(front, last, e.id);
      assert after == front + [last];
    }
  }

  lemma RenewedOneMore(front: seq<Step>, last: Step, id: string)
    ensures Renewed(front + [last], id) <==> Renewed(front, id) || Renews(last, id)
  {
    var steps := front + [last];
    assert steps[|front|] == last;
    if i :| 0 <= i < |front| && Renews(front[i], id) {
      assert Renews(steps[i], id);
    }
  }

  /** After any run, an update, and any further run that leaves the row as it is: with nothing failing, a lookup
      answers the new row, secret aside, if and only if a failing cache read has renewed the entry since, or the
      entry there was at the update is gone or expired, or said the same. Until then it answers that entry. A
      minute after the update it answers the new row. */
  lemma UpdateTakesEffectIff(before: seq<Step>, e: Endpoint, after: seq<Step>)
    requires Left(after, e.id)
    ensures var s0, s := Run(before + [Store(e)]), Run(before + [Store(e)] + after);
            var answer := LookupResult(Current(s), s.entries, e.id, s.now, NO_FAULTS);
            && answer.Found?
            && (Redacted(answer.endpoint) == Redacted(e) <==>
                  Renewed(after, e.id) || Expired(s0.entries, e.id, s.now)
                  || Redacted(s0.entries[e.id].value) == Redacted(e))
            && (Redacted(answer.endpoint) != Redacted(e) ==> answer.endpoint == s0.entries[e.id].value)
            && (s.now >= s0.now + 60_000_000_000 ==> Redacted(answer.endpoint) == Redacted(e))
  {
    RunSeesUpdate(before, e, after);
    var s0 := Run(before + [Store(e)]);
    RunIsSound(before + [Store(e)]);
    if e.id in s0.entries {
      assert EntrySound(s0, e.id);
      assert s0.entries[e.id].expires <= s0.now + CACHE_TTL;
    }
  }

  lemma ReadFillsCache(e: Endpoint)
    ensures var s := Run([Store(e), Read(e.id, NO_FAULTS)]);
            s.now == 0 && s.entries == map[e.id := Entry(Redacted(e), CACHE_TTL)]
  {
    assert Run([]) == START;
    RunOneMore([], Store(e));
    assert [] + [Store(e)] == [Store(e)];
    RunOneMore([Store(e)], Read(e.id, NO_FAULTS));
    assert [Store(e)] + [Read(e.id, NO_FAULTS)] == [Store(e), Read(e.id, NO_FAULTS)];
  }

  /** The bound is attained: one nanosecond short of a minute after an endpoint was deleted a lookup still returns it. */
  lemma DeletedEndpointLingers(e: Endpoint)
    ensures var s := Run([Store(e), Read(e.id, NO_FAULTS)] + [Remove(e.id)] + [Wait(59_999_999_999)]);
            && e.id !in Current(s)
            && LookupResult(Current(s), s.entries, e.id, s.now, NO_FAULTS) == Found(Redacted(e))
  {
    var filled := [Store(e), Read(e.id, NO_FAULTS)];
    ReadFillsCache(e);
    RunOneMore(filled, Remove(e.id));
    RunOneMore(filled + [Remove(e.id)], Wait(59_999_999_999));
  }

  /** And as long after it was switched off a lookup still says that it is active. */
  lemma SwitchedOffEndpointLingers(e: Endpoint)
    requires e.active
    ensures var off := e.(active := false);
            var s := Run([Store(e), Read(e.id, NO_FAULTS)] + [Store(off)] + [Wait(59_999_999_999)]);
            && e.id in Current(s) && !Current(s)[e.id].active
            && LookupResult(Current(s), s.entries, e.id, s.now, NO_FAULTS) == Found(Redacted(e))
  {
    var filled, off := [Store(e), Read(e.id, NO_FAULTS)], e.(active := false);
    ReadFillsCache(e);
    RunOneMore(filled, Store(off));
    RunOneMore(filled + [Store(off)], Wait(59_999_999_999));
  }

  lemma RunOneMore(steps: seq<Step>, st: Step)
    ensures Run(steps + [st]) == Apply(Run(steps), st)
  {
    assert (steps + [st])[..|steps|] == steps;
  }
}
