# Webhook delivery platform: verification model

This project models the part of the webhook platform that accepts events, delivers them over HTTP,
retries them and gives them up, and proves what that part keeps over whole runs.

The protocol is modelled at two levels; `Refinement` proves that what an undisturbed worker of the second can do to
the tables is exactly what one dispatch of the first can do.

* **Lifecycle** takes each call of `Create`, `processMessage` and `processRetryableEvents` as one step over the
  event rows, the attempt log, the dead-letter table, the topic (a multiset, so messages may be repeated and
  overtake each other) and the breaker's Redis keys. Everything a step meets outside (store failures, the
  lock, the endpoint lookup, the reply, time, the random draw) is an input, so every theorem is for all of
  them. `Accounting`, `Pacing`, `Scheduling`, `Progress` and `Draining` hold the theorems about runs.
* **Interleaving** takes every store command of any number of workers as its own step, reads the row before the
  lock as the code does, and lets any message arrive at any moment, workers crash and locks expire.
  `Snapshots` proves what survives that, `Anomalies` gives concrete runs for what does not, `Finality` proves
  exactly when a resolved status is final after all, `Exclusion` what the lock gives, `Orderly` when the books of the
  first level are kept here too, and `Refinement` ties one handling to one step of the first.
* **Repositories**, **Services** and **Dispatcher** are the imperative code: classes with the fields the stores
  have, changed command by command in the source's order. Each method is proved to take the corresponding step
  of the Lifecycle, and the consumer loop to produce a legal run of it.

Beside the protocol stand `CircuitBreaker` (three Redis keys per endpoint), `RateLimiter` (the trimmed, expiring
sorted set), `Lock`, `EndpointCache`, `Backoff` (int64 nanoseconds with wrap-around), `Signer` (the signature
header) and `EventTypes` (wildcard subscriptions), with `GoStrings`, `Domain` and `Prelude` below them.

There is one clock that never runs back. `Unix` of a time in nanoseconds is its floor in seconds. Identifiers and
lock values are fresh inputs. HMAC-SHA256 (RFC 2104) is any function from a key and a text to 32 bytes; its code
is printed in lower-case hexadecimal (section 8 of RFC 4648). A Go string is a sequence of bytes, here of
characters. A topic message that does not decode is committed and ignored exactly as one that names no stored
event, so messages are event ids.

Where a promise one might expect does not hold, the code was kept and the failure is a theorem:

* Half-open admits every caller, not one probe (`CircuitBreaker.HalfOpenAdmitsEveryone`).
* A resolved status is final when calls are atomic (`Accounting.ResolvedForGood`) but not when they interleave
  (`Anomalies.LateMarkRevives`), and a stale read can send a delivered event again (`Anomalies.StaleReadSendsAgain`).
  When each of the two holds is decided for every state by `Finality.ResolvedIsFinalIff` and
  `Finality.NeverSentAgainIff`.
* The lock excludes an event's handlings as long as none of its holders has outstayed it, and no longer
  (`Exclusion.MutualExclusion`, `Exclusion.ExclusionIffNoSlack`): one holder that has breaks it, even later and
  for others (`Anomalies.OverstayedLockOverlaps`, `Anomalies.LateReleaseBreaksExclusion`).
* Events are lost in exactly the cases listed by `Progress.Forgets` (`Progress.LostExactlyWhenListed`).
* The limiter's bound holds if and only if no check reaches Redis more than ten seconds after its clock reading,
  the margin between window and expiry, and no late check is overtaken by a later reading
  (`RateLimiter.BoundHoldsIffWellTimed`).
* Backoff is respected if messages are consumed exactly once, and one slip of any of three kinds is enough for an
  early delivery (`Pacing.BackoffIsRespected`, `Pacing.OneSlipIsEnough`).
* The dead-letter row of an exhausted event counts one attempt less than were made
  (`Accounting.DeadLettersAreConserved`).
* A deleted or switched-off endpoint may be used for up to a minute; when the change takes effect is decided by
  the cache entry of that moment (`EndpointCache.DeletedEndpointLingers`, `EndpointCache.DeletedEndpointIsMissingIff`,
  `EndpointCache.SwitchedOffEndpointLingers`, `EndpointCache.UpdateTakesEffectIff`).
* A signature with timestamp 0 does not survive printing and parsing (`Signer.SignedHeaderVerifies`).
* Attempt 0 has no cap on its backoff (`Backoff.AttemptZeroIsUncapped`).

`dafny verify dfyconfig.toml` checks the whole project.

## Model

| member | source | states |
|---|---|---|
| `Accounting.AttemptsAreNumbered` | internal/service/dispatcher.go:165-182 | In every reachable state, messages repeated and reordered at will, the attempt rows of an event are numbered 1, 2, ... with no gap or repeat, one per delivery made; there are at most five; the event is delivered if and only if the last has a status from 200 to 299 and no error, and no earlier one has |
| `Accounting.DeadLettersAreConserved` | internal/service/dispatcher.go:238-264 | An event is failed if and only if one dead-letter row names it, never two; the row copies tenant, endpoint, type and payload; for a missing or inactive endpoint its total is the number of deliveries; otherwise there were exactly five, its total is four, and its reason and status are those of the last reply |
| `Accounting.ResolvedForGood` | internal/service/dispatcher.go:112-118 | From any state, along any legal continuation and whichever writes fail, the row of a delivered or failed event never changes |
| `Accounting.StepKeepsAccounts` | internal/service/dispatcher.go:209-236 | Every single step keeps the bookkeeping of every event: count, rows, letters and retry time together |
| `Pacing.BreakerIsTheAttemptLog` | internal/repository/redis/circuit_breaker.go:80-109 | In every reachable state an endpoint's breaker is open or half-open if and only if its failed deliveries since the last success, as the attempt log has them, reach the threshold |
| `Pacing.FailingEndpointIsSpaced` | internal/repository/redis/circuit_breaker.go:50-63 | While an endpoint keeps failing, a message passes its breaker if and only if more than the timeout in Unix seconds has gone by since the latest failure was recorded |
| `Pacing.HealthyEndpointIsNeverRefused` | internal/repository/redis/circuit_breaker.go:31-48 | The breaker refuses only when the failed run has reached the threshold |
| `Pacing.BackoffIsRespected` | internal/service/dispatcher.go:224-235 | With exactly-once consumption, whatever else fails, no delivery starts before the retry time its last attempt stored, there is at most one message per event, and none while it waits for a retry or is resolved |
| `Pacing.RetryTimeIsInTheWindow` | internal/service/dispatcher.go:209-235 | A failed delivery that is not the last stores the next count and a retry time at or after the reply and within base times two to the attempt, capped at an hour |
| `Pacing.EarlyIff` | internal/service/dispatcher.go:94-138 | In any state an event can be delivered before its retry time if and only if a message of it is out, it is unresolved and not yet due, and the breaker passes it: the dispatcher itself never looks at the time |
| `Pacing.OneSlipIsEnough` | internal/service/dispatcher.go:81-90 | Each part of exactly-once is needed: a lost commit, a repeated message, or a publish without its mark, once in a run from the start, gets to an early delivery under every breaker setting |
| `Scheduling.TickTakesBatch` | internal/service/scheduler.go:52-90 | A successful tick publishes each event of the batch once, takes exactly min(limit, due) events out of the backlog, and leaves none that was due earlier than one it took |
| `Scheduling.BacklogDrains` | internal/service/scheduler.go:36-90 | However far apart the ticks are, if nothing new comes due by the last one: nothing is left due if and only if there were at least ceil(due / limit) successful ticks; then every event that was due is queued and no other row changed, however the query breaks ties |
| `Scheduling.EarliestDueExists` | internal/repository/postgres/event.go:135-163 | The due query has an answer for every table, instant and limit |
| `Progress.LostExactlyWhenListed` | internal/service/dispatcher.go:81-138 | From any state a step leaves a safe event (resolved, retrying, or with a message out) safe if and only if it is not one of the listed ways of forgetting it |
| `Progress.NothingIsLost` | internal/service/event.go:80-106 | Over every run that takes no listed step for it, an event stays safe |
| `Progress.EffectLowersRank` | internal/service/dispatcher.go:209-236 | Whichever writes fail, a step leaves an event's row alone or strictly lowers its rank |
| `Progress.ChangesAreBounded` | internal/service/dispatcher.go:209-264 | Along any run, however long and faulty, an event's row changes at most as often as its rank |
| `Progress.EverythingDrains` | internal/service/scheduler.go:52-90 | From any state with no event lost, and whatever replies, delays, retry bases and draws deliveries meet, waiting, requeueing and delivering can bring every event to delivered or failed |
| `Progress.UnforgettingRunsDrain` | internal/service/dispatcher.go:94-236 | Every legal run that took no forgetting step, whatever else failed in it, can be continued until every event is resolved |
| `Draining.WorkIsBounded` | internal/service/dispatcher.go:94-236 | Over every run of steps that do their work, in whatever order the fleet picks messages and whatever endpoints reply: no event is lost, and deliveries made plus events requeued never exceed twice the total rank plus the messages out at the start |
| `Draining.DriversWorkIsBounded` | internal/service/dispatcher.go:94-236 | The same bound for the runs of `Progress.EverythingDrains` |
| `Draining.WorkLowersMeasure` | internal/service/scheduler.go:64-87 | Each such step lowers that measure by at least the messages it consumes or publishes: one for a delivery, k for a batch of k |
| `Draining.IdleMeansDrained` | internal/service/dispatcher.go:112-118 | With no event lost and no message out, every event is resolved if and only if none waits for a retry |
| `Draining.FairRunsDrain` | internal/service/dispatcher.go:67-92 | Every endless run of such steps from a state with no event lost, in which the clock runs, fetching goes on while messages are out and no event stays due for ever, reaches an instant from which all events are resolved for good |
| `Exclusion.MutualExclusion` | internal/service/dispatcher.go:120-161 | With any number of workers and two-command releases: if in every state a step was taken from no worker at the event had outstayed its lock, then, whatever workers at other events do, no two are between grant and end of release for it, so no two deliveries of it overlap |
| `Exclusion.ExclusionIffNoSlack` | internal/repository/redis/lock.go:20-41 | The condition is exact: for any two or more workers and any event, the runs whose holders at the event keep within their time plus some slack all exclude if and only if the slack is at most 0 |
| `Exclusion.StepKeepsLocks` | internal/repository/redis/lock.go:20-41 | Every step from a state where nobody at the event is late keeps its holder's value in its key and all holders' values different |
| `Snapshots.BudgetSurvives` | internal/service/dispatcher.go:209-236 | In every reachable state, with stale snapshots, lost writes, crashes and expired locks, the stored count is at least 0 and below the maximum, and a retrying event has been tried and has a retry time |
| `Snapshots.ClaimsAreBacked` | internal/service/dispatcher.go:165-182 | If inserts are stored: a stored count of k has attempt rows 1 to k, delivered has a success row, failed has a dead-letter row with the event's tenant, endpoint, type and payload |
| `Anomalies.OverstayedLockOverlaps` | internal/repository/redis/lock.go:20-28 | A concrete run in which two workers send the same event once a lock has run out |
| `Anomalies.LateReleaseBreaksExclusion` | internal/repository/redis/lock.go:30-41 | A concrete run in which a delayed DEL removes another holder's lock and two workers hold one event's lock, both within their own time |
| `Anomalies.StaleReadSendsAgain` | internal/service/dispatcher.go:103-120 | A concrete run, nobody late, in which an already delivered event is being sent again as attempt 1 |
| `Anomalies.LateMarkRevives` | internal/service/event.go:84-106 | A concrete run in which the mark after publishing turns a delivered event back into a queued one |
| `Finality.ResolvedIsFinalIff` | internal/service/dispatcher.go:103-186 | In any state of any number of workers, no run can ever change a resolved row if and only if no queue mark for it is outstanding and every worker at it is leaving or about to write what the row already says |
| `Finality.NeverSentAgainIff` | internal/service/dispatcher.go:103-161 | No run ever sends an event if and only if it is resolved, no queue mark for it is outstanding, and every worker at it has sent what it will send and is going to leave it resolved |
| `Finality.FinalForGood` | internal/service/dispatcher.go:112-118 | From such a final state on, the row is the same and nobody is sending the event in every state of every run |
| `Orderly.NumberedInTurn` | internal/service/dispatcher.go:103-186 | In the interleaved dispatchers, an event whose handlings do not overlap, meet no outstanding queue mark and store what they write has its attempts numbered without gap or repeat, at most five, in every state; and between handlings its row, rows and single dead letter agree as in the atomic model |
| `Refinement.SoloRunIsDispatch` | internal/service/dispatcher.go:94-186 | Among any other workers, every run of one worker alone from its fetch to its end, whatever its commands answer, changes the clock, the rows, the log and the dead letters as some Lifecycle dispatch does, and no other worker |
| `Refinement.DispatchIsSoloRun` | internal/service/dispatcher.go:94-186 | Every Lifecycle dispatch that needs no lock somebody holds is realised by a run of one worker alone |
| `Refinement.SoloRunsAreDispatches` | internal/service/dispatcher.go:94-186 | So, with the event's lock free, the tables one worker alone can leave are exactly those one dispatch can leave |
| `Lifecycle.ProcessInFull` | internal/service/dispatcher.go:94-285 | One dispatch written out: who is attended to, which replies are accepted, the attempt, the dead letter and the row, field by field |
| `CircuitBreaker.TrippedIffTrailingRun` | internal/repository/redis/circuit_breaker.go:68-109 | Over any interleaving of admissions and outcomes of all endpoints, the breaker is open or half-open if and only if the trailing run of failures reaches the threshold |
| `CircuitBreaker.AdmissionIsAFunctionOfHistory` | internal/repository/redis/circuit_breaker.go:31-66 | A request passes if and only if that run is short or the latest failure is more than the timeout ago, whatever probes came between |
| `CircuitBreaker.FailureKeeps` | internal/repository/redis/circuit_breaker.go:80-109 | A failure lengthens its endpoint's run by one, half-open or not, and no other endpoint's |
| `CircuitBreaker.FaultyFailure` | internal/repository/redis/circuit_breaker.go:80-109 | What is left of a failure when its commands fail: nothing, or a count without a trip; an unreadable half-open state is counted like a closed one |
| `CircuitBreaker.HalfOpenAdmitsEveryone` | internal/repository/redis/circuit_breaker.go:46-48 | Once one request has passed a tripped breaker, any further one passes too |
| `CircuitBreaker.CircuitBreakerRepo.Allow` | internal/repository/redis/circuit_breaker.go:31-66 | Reports an error exactly when a needed read fails, and then changes nothing; otherwise decides and updates the keys as the step function the history theorems are about |
| `CircuitBreaker.CircuitBreakerRepo.RecordSuccess` | internal/repository/redis/circuit_breaker.go:68-78 | Takes the success step the history theorems are about, or fails and changes nothing |
| `CircuitBreaker.CircuitBreakerRepo.RecordFailure` | internal/repository/redis/circuit_breaker.go:80-109 | The keys and the error for every way the state read, the counter and the trip can fail; with nothing failing it is the failure step the history theorems are about |
| `RateLimiter.WindowBound` | internal/repository/redis/rate_limiter.go:24-53 | With check and add as separate pipelines of at most P overlapping callers, limits at most L and a well-timed setup, every 60-second window ending at any instant holds at most L + P - 1 admissions, in-flight ones included; at most L when P is 1 |
| `RateLimiter.BoundIsAttained` | internal/repository/redis/rate_limiter.go:37-45 | For every L and P of at least 1 and with exact clocks some run reaches L + P - 1, so the bound cannot be improved |
| `RateLimiter.BoundHoldsIffWellTimed` | internal/repository/redis/rate_limiter.go:24-53 | For every L and P of at least 1, all runs keep the bound over every (t - 60000 ms, t] if and only if no check is more than 10000 ms late and no late check is overtaken by a later clock reading |
| `RateLimiter.IllTimedBreaksTheBound` | internal/repository/redis/rate_limiter.go:26-46 | Otherwise, for every L and P, a run from the empty key admits L + P into one window: after the key expired under a late check, or was pruned past the window of an overtaken one |
| `RateLimiter.CheckDecidesAsTheLog` | internal/repository/redis/rate_limiter.go:29-39 | In every reachable state a check answers exactly as an append-only log of all admissions filtered to its window |
| `RateLimiter.TrimmedSetDecidesAsLog` | internal/repository/redis/rate_limiter.go:24-53 | For every timely series of whole requests the trimmed set with its renewed 70-second expiry gives the same answers as the log, one by one |
| `RateLimiter.RateLimiterRepo.Allow` | internal/repository/redis/rate_limiter.go:24-53 | For every way each pipeline can end: the key after the call, the answer or error, and that no other tenant's key changes; and a request on time is admitted if and only if fewer than the limit were admitted in the 60000 ms up to its clock reading |
| `Lock.LockRepo.Acquire` | internal/repository/redis/lock.go:20-28 | Granted exactly when Redis answers and no live value is stored; then the caller owns the key |
| `Lock.LockRepo.Release` | internal/repository/redis/lock.go:30-41 | True exactly when the live value is the caller's; only then may the key be removed |
| `EndpointCache.StalenessIsBounded` | internal/service/dispatcher.go:188-207 | After any run of changes, reads, waits and failures, a lookup answers with a row that was, in all but its secret, in the table at some instant of the last 60 seconds; missing is said only of a row missing now; the cache never holds a secret |
| `EndpointCache.DeletedEndpointLingers` | internal/repository/redis/endpoint_cache.go:43-50 | 59999999999 ns after its deletion a cached endpoint is still answered |
| `EndpointCache.DeletedEndpointIsMissingIff` | internal/service/dispatcher.go:188-207 | After any run, a deletion and any run without storing the endpoint again, a lookup with nothing failing says missing if and only if the entry there was at the deletion has expired, and answers that entry until then; a minute later it has |
| `EndpointCache.SwitchedOffEndpointLingers` | internal/service/dispatcher.go:140-152 | 59999999999 ns after it was switched off a cached endpoint is still answered as active |
| `EndpointCache.UpdateTakesEffectIff` | internal/service/dispatcher.go:188-207 | After any run, an update and any run that leaves the row alone, a lookup with nothing failing answers the new row, secret aside, if and only if a failing cache read has renewed the entry since, or the entry there was at the update is gone or expired or said the same; until then it answers that entry, and a minute later the new row |
| `EndpointCache.GetEndpoint` | internal/service/dispatcher.go:188-207 | A cache hit wins; a miss or cache error falls through to the table; only a found row fills the cache, without its secret |
| `EndpointCache.EndpointCache.Get` | internal/repository/redis/endpoint_cache.go:26-41 | Answers the stored entry exactly while it is live and readable |
| `EndpointCache.EndpointCache.Set` | internal/repository/redis/endpoint_cache.go:43-50 | Stores the endpoint without its secret for 60 seconds, or nothing on error |
| `Signer.RoundTrip` | internal/delivery/signer.go:17-65 | Printing and parsing a signature gives it back if and only if its timestamp is not zero and its code is non-empty and free of commas, for all 64-bit timestamps |
| `Signer.ReparseIsIdentity` | internal/delivery/signer.go:38-65 | For every accepted header, printing the result and parsing again gives the same result |
| `Signer.LaterTimestampWins` | internal/delivery/signer.go:38-65 | One more "t=" part replaces the timestamp if it is a readable number other than 0, and spoils the header otherwise |
| `Signer.LaterCodeWins` | internal/delivery/signer.go:38-65 | One more "v1=" part replaces the code |
| `Signer.UnknownPartIsIgnored` | internal/delivery/signer.go:38-65 | One more part that begins with neither changes nothing |
| `Signer.HexInFull` | internal/delivery/signer.go:26-31 | The code has two lower-case digits a byte, the higher one first |
| `Signer.SignedTextInjective` | internal/delivery/signer.go:21-24 | The signed text determines timestamp and payload, for all payload bytes |
| `Signer.SignedHeaderVerifies` | internal/delivery/signer.go:21-65 | A signed header is accepted after printing and parsing if and only if its timestamp is not zero |
| `Signer.ForgeryNeedsCollision` | internal/delivery/signer.go:33-36 | A code made for one message and time is accepted for a different one if and only if the authentication codes of their two different texts coincide |
| `Signer.ParseSignature` | internal/delivery/signer.go:38-65 | The loop accepts exactly headers whose every t is readable and whose last t and last v1 are not at their zero values, and returns those last values |
| `GoStrings.ParseDecimal` | internal/delivery/signer.go:18-50 | Reading back the decimal print of any 64-bit integer gives that integer |
| `GoStrings.ParseIntInFull` | internal/delivery/signer.go:48-53 | A number is read if and only if the text is an optional sign and digits whose value fits 64 bits |
| `EventTypes.WildcardIsSegmentPrefix` | internal/service/event.go:159-168 | For all strings q and e, "q.*" accepts e if and only if the dot-separated segments of q are a strict prefix of those of e |
| `EventTypes.MatchMeaning` | internal/service/event.go:159-168 | Any pattern accepts exactly everything, the proper extensions of its segments before a last "*", or itself |
| `EventTypes.WildcardSubsumption` | internal/service/event.go:163-166 | Whatever "q.r.*" accepts, "q.*" accepts |
| `EventTypes.AddingPatterns` | internal/service/event.go:145-157 | Adding patterns keeps an accepted type accepted if and only if the list was not empty, nothing was added, or an added pattern accepts it |
| `EventTypes.MatchesEventTypes` | internal/service/event.go:145-157 | True exactly when the list is empty or some pattern accepts the type |
| `Backoff.DelayIsCeiling` | pkg/retry/exponential.go:10-20 | For every attempt from 1 on, however large, and every base up to 4611686018427 ms, the loop's window is base times two to the attempt capped at one hour, with no overflow |
| `Backoff.DelayMonotone` | pkg/retry/exponential.go:10-20 | The window is monotone in attempt and base |
| `Backoff.EveryWaitIsDrawn` | pkg/retry/exponential.go:22-23 | Full jitter: a wait is drawn by some draw if and only if it is below the window |
| `Backoff.LargestSafeBaseIsSharp` | pkg/retry/exponential.go:10-20 | Of the bases from 1 ms that fit the register in nanoseconds, exactly those up to 4611686018427 ms follow that law at every attempt from 1 on |
| `Backoff.AttemptZeroIsUncapped` | pkg/retry/exponential.go:10-20 | With attempt 0 or less the window is the base itself, without the cap |
| `Backoff.CallSitePanicsIffBaseNotPositive` | internal/service/dispatcher.go:210-224 | For the attempts 1 to 4 and 32-bit bases of the call site the random source panics if and only if the base is below 1 |
| `Backoff.AcceptedBaseNeverPanics` | internal/service/tenant.go:57-60 | Every base tenant validation lets into the 32-bit column gives a positive, capped window at every attempt |
| `Backoff.CalculateBackoff` | pkg/retry/exponential.go:10-24 | For all 64-bit arguments: panics exactly when the wrapped window is not positive, and otherwise returns the draw reduced below the window |
| `Repositories.EventRepo.FindRetryable` | internal/repository/postgres/event.go:135-163 | Returns min(limit, due) distinct due events in order of due time, none left behind that is due earlier than one returned |
| `Repositories.EarliestDueInFull` | internal/repository/postgres/event.go:135-163 | The answer holds only retrying events whose time has come, and all of them if it is short of the limit |
| `Services.EventService.Create` | internal/service/event.go:40-111 | Refuses with the first objection in the code's order and then changes nothing; otherwise stores and returns the row field by field, queued if and only if published and marked, and signed in the wire format with the endpoint's secret in the very second of the call, as one legal Create step |
| `Services.ObjectionInFull` | internal/service/event.go:41-60 | When each objection is raised, case by case, and that there is none if and only if the input is valid and the endpoint found, the tenant's own, active and subscribed |
| `Services.SchedulerService.ProcessRetryableEvents` | internal/service/scheduler.go:52-90 | Takes one Schedule step over the at most 100 earliest due events; each published one is on the topic once more, and only published and marked ones are queued, for any pattern of failing publishes and updates |
| `Dispatcher.DispatcherService.ProcessMessage` | internal/service/dispatcher.go:94-186 | Takes exactly one Dispatch step for every combination of failures; asks for the lock of that event alone, for five minutes, and leaves it behind only if its owner could not read or delete it or came too late; what it logs and buries is borne out by the endpoint's last minute |
| `Dispatcher.SkippedIff` | internal/service/dispatcher.go:103-125 | A readable unresolved event is skipped if and only if Redis fails or holds a live lease of that very event; leases of other events never stand in its way |
| `Dispatcher.LockKeysDiffer` | internal/service/dispatcher.go:120 | Two events have the same lock key if and only if they are the same |
| `Dispatcher.DispatcherService.DeliverLocked` | internal/service/dispatcher.go:127-186 | From granted lock to release: the Dispatch step of a stored, unresolved event; an attempt is logged only if the endpoint was switched on at some instant of the last 60 seconds, a letter written for an inactive one only if it was off, for a missing one only if it has no row now |
| `Dispatcher.DispatcherService.Conclude` | internal/service/dispatcher.go:165-185 | Log, breaker, letters and row after a reply, each write stored or lost independently; with the status stored the row is delivered if and only if the status is from 200 to 299 and there was no error |
| `Dispatcher.DispatcherService.HandleFailure` | internal/service/dispatcher.go:209-236 | Dead letter and failed on the last attempt, otherwise retrying with the next count and time; never panics |
| `Dispatcher.DispatcherService.HandleDeadLetter` | internal/service/dispatcher.go:238-264 | The letter copies the event as read; the row becomes failed even if the letter was lost |
| `Dispatcher.DispatcherService.ConsumeMessage` | internal/service/dispatcher.go:81-90 | Processing and then committing whatever came of it is exactly the Dispatch step of what the message met |
| `Dispatcher.DispatcherService.TakeTurn` | internal/service/dispatcher.go:70-91 | One turn is exactly the Dispatch step of what the message met when it was there, and otherwise nothing changes; an attempt is logged only to an endpoint switched on in the last minute |
| `Dispatcher.DispatcherService.Start` | internal/service/dispatcher.go:67-92 | A session over any series of fetches, others changing the endpoints meanwhile, is a legal Lifecycle run from the stores before to the stores after, with one wait per fetch and one dispatch, under that fetch's conditions, for each message that was there; no attempt goes to an endpoint that was missing or inactive for the whole minute before its fetch |

## Left out

- HTTP handlers, routing, CORS, logging, metrics, tracing, gRPC, configuration, mains and deployment: no property beyond reading one branch.
- Tenant and endpoint management, pagination, URL validation: each is settled by reading one branch; only the retry-base checks are modelled.
- Endpoint deletion with its cascade to events, attempts and dead letters: events are never removed here; the lookup may still answer missing at any time.
- Redis, Postgres and Kafka themselves: each command or pipeline is atomic and either happens or is reported as failed; a write that happens although an error is reported is modelled for the limiter's pipelines only.
- Postgres rounds timestamps to microseconds; the model keeps nanoseconds. Redis keeps expiry times in whole milliseconds; the lock and the cache expire to the nanosecond here.
- Float64 scores in the sorted set: millisecond times are far below the range where they lose precision.
- JSON encoding: a message carries its event id, a cached endpoint everything but the secret; response bodies and headers of attempts are not kept.
- The context: cancellation and deadlines of calls; an interrupted worker is the crash step of Interleaving.
- The dispatcher's unused retry publisher, the retry and dead-letter topics, and the delivering status, which no step writes.
- `Exclusion.MutualExclusion`: the breaker is not part of the interleaved state; whether a worker is admitted is left open. The lock key is the event id without its prefix.
- `Dispatcher.DispatcherService.Start`: the endless loop is a finite series of fetches of any length; a failing fetch is one for a message that is not there.
- `Dispatcher.DispatcherService.ProcessMessage`: the deferred release runs with nothing between its two commands; Interleaving models them apart.
- `CircuitBreaker.CircuitBreakerRepo.RecordFailure`: its commands run without interference; the state key holds only the three values the code writes.
- `GetState` of the breaker and `Invalidate` of the cache, which the modelled services never call.
- The error of a publish that Kafka keeps all the same: in the Lifecycle that is a publish that failed and a message that arrives again.
- `RateLimiter.WindowBound`: assumes a well-timed setup, which is shown to be exactly what it needs. A tenant's limit may vary but stays at most L.
- `Accounting.AttemptsAreNumbered`: assumes the three rows a message writes are stored; queue marks and publishes may fail.
