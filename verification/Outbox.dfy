/** The import_dispatch_outbox row and the guarded updates that change it. */
module Outbox {
  import opened Domain

  type EventId = nat

  datatype EventStatus = PENDING | PROCESSING | PUBLISHED | FAILED

  datatype Event = Event(
    importId: ImportId,
    status: EventStatus,
    attemptCount: nat,
    availableAt: nat,
    claimedAt: Option<nat>,
    claimToken: Option<Token>,
    publishedAt: Option<nat>,
    lastError: Option<string>)

  const STALE_CLAIM := "Outbox publisher claim expired."

  /** A committed claim that the publisher dispatches outside any transaction. */
  datatype ClaimedEvent = ClaimedEvent(outboxId: EventId, importId: ImportId, claimToken: Token, attemptCount: nat)

  function NewEvent(id: ImportId, availableAt: nat): Event {
    Event(id, PENDING, 0, availableAt, None, None, None, None)
  }

  predicate Due(event: Event, now: nat) {
    event.status == PENDING && event.availableAt <= now
  }

  /** The guard of every publish result. */
  predicate Held(event: Event, token: Token) {
    event.status == PROCESSING && event.claimToken == Some(token)
  }

  predicate HeldByAny(event: Event, tokens: set<Token>) {
    event.status == PROCESSING && event.claimToken.Some? && event.claimToken.value in tokens
  }

  /** Published and failed events are done with. */
  predicate Settled(event: Event) {
    event.status == PUBLISHED || event.status == FAILED
  }

  function Claim(event: Event, token: Token, now: nat): Event {
    event.(status := PROCESSING, claimToken := Some(token), claimedAt := Some(now))
  }

  function MarkPublished(event: Event, now: nat): Event {
    event.(status := PUBLISHED, publishedAt := Some(now), claimToken := None, lastError := None)
  }

  /** The retry policy: exhausted events fail, others become available after the delay for this attempt. */
  datatype FailurePlan = Exhausted | RetryAfter(delay: nat) | NoSuchDelay

  function PlanFailure(attemptCount: nat, maxAttempts: nat, delays: seq<nat>): FailurePlan
    requires 1 <= attemptCount
  {
    if attemptCount >= maxAttempts then Exhausted
    else if attemptCount - 1 < |delays| then RetryAfter(delays[attemptCount - 1])
    else NoSuchDelay
  }

  function MarkFailure(event: Event, attemptCount: nat, plan: FailurePlan, error: string, now: nat): Event
    requires !plan.NoSuchDelay?
  {
    match plan
    case Exhausted =>
      event.(status := FAILED, attemptCount := attemptCount, lastError := Some(error), claimedAt := Some(now),
             claimToken := None)
    case RetryAfter(delay) =>
      event.(status := PENDING, attemptCount := attemptCount, lastError := Some(error), claimedAt := None,
             claimToken := None, availableAt := now + delay)
  }

  predicate StaleClaim(event: Event, before: nat) {
    event.status == PROCESSING && event.claimedAt.Some? && event.claimedAt.value < before
  }

  function RequeueStale(event: Event, now: nat): Event {
    event.(status := PENDING, availableAt := now, claimedAt := None, claimToken := None, lastError := Some(STALE_CLAIM))
  }

  function FailStale(event: Event): Event {
    event.(status := FAILED, claimToken := None, lastError := Some(STALE_CLAIM))
  }

  /** What holds of the row in every reachable state. */
  predicate Sound(event: Event, maxAttempts: nat) {
    && event.attemptCount <= maxAttempts
    && (event.status == PENDING || event.status == PROCESSING ==> event.attemptCount < maxAttempts)
    && (event.status == FAILED ==> event.attemptCount == maxAttempts)
    && (event.status == PROCESSING <==> event.claimToken.Some?)
    && (event.status == PROCESSING ==> event.claimedAt.Some?)
    && (event.status == PUBLISHED <==> event.publishedAt.Some?)
  }

  /** The index into the delays is in range at every attempt exactly when the maximum is one more than their number. */
  lemma DelaysCoverExactly(maxAttempts: nat, delays: seq<nat>)
    ensures (forall n: nat | 1 <= n :: !PlanFailure(n, maxAttempts, delays).NoSuchDelay?)
       <==> maxAttempts <= |delays| + 1
  {
    if maxAttempts > |delays| + 1 {
      assert PlanFailure(|delays| + 1, maxAttempts, delays).NoSuchDelay?;
    }
  }
}
