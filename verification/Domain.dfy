/** internal/domain: the records the services pass around. */
module Domain {
  import opened Prelude

  type int32 = x: int | -0x8000_0000 <= x <= 0x7FFF_FFFF

  /** A tenant's retry_base_ms as validation and the column leave it. */
  type RetryBase = b: int | 100 <= b <= 0x7FFF_FFFF witness 1000

  const DEFAULT_RETRY_BASE: RetryBase := 1000
  const MAX_ATTEMPTS: int32 := 5

  datatype Status = Pending | Queued | Delivering | Delivered | Failed | Retrying

  /** next_retry_at is in nanoseconds, like every time here. */
  datatype Event = Event(tenant: string, endpoint: string, eventType: string, payload: string, signature: string,
                         status: Status, attemptCount: int32, maxAttempts: int32, nextRetryAt: Option<int>)
  {
    predicate Resolved() { status == Delivered || status == Failed }
  }

  /** What one HTTP delivery came back with; the error is the transport's. */
  datatype Reply = Reply(statusCode: int, error: Option<string>)
  {
    predicate Success() { 200 <= statusCode < 300 && error == None }
  }

  datatype Reason =
    | EndpointNotFound
    | EndpointInactive
    | ConnectionError(message: string)
    | HttpStatus(code: int)

  function FailureReason(r: Reply): Reason {
    match r.error
    case Some(message) => ConnectionError(message)
    case None => HttpStatus(r.statusCode)
  }

  /** A row of delivery_attempts. */
  datatype Attempt = Attempt(eventId: string, endpoint: string, number: int, reply: Reply, createdAt: int)

  /** A row of dead_letter_events. */
  datatype DeadLetter = DeadLetter(eventId: string, tenant: string, endpoint: string, eventType: string,
                                   payload: string, reason: Reason, lastStatusCode: int, totalAttempts: int)

  function NewLetter(id: string, e: Event, reason: Reason, code: int): DeadLetter {
    DeadLetter(id, e.tenant, e.endpoint, e.eventType, e.payload, reason, code, e.attemptCount)
  }

  const SECOND := 1_000_000_000

  /** Time.Unix of a time in nanoseconds. */
  function Unix(ns: int): int { ns / SECOND }
}
