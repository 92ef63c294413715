/** The import_jobs row and the guarded updates that change it. */
module ImportJobs {
  import opened Domain

  datatype Status = PENDING | PROCESSING | COMPLETED | FAILED

  datatype Job = Job(
    status: Status,
    totalRows: nat,
    processedRows: nat,
    successCount: nat,
    failedCount: nat,
    attemptCount: nat,
    maxAttempts: nat,
    processingToken: Option<Token>,
    lockedByWorker: Option<string>,
    startedAt: Option<nat>,
    lastHeartbeatAt: Option<nat>,
    finishedAt: Option<nat>,
    lastRequeuedAt: Option<nat>,
    lastFailureReason: Option<string>,
    failureReason: Option<string>)

  const DISPATCH_EXHAUSTED := "Import processing never started because dispatch was exhausted."
  const STALE_HEARTBEAT := "Worker heartbeat expired."
  const MAX_ATTEMPTS := "Import processing failed after the maximum number of attempts."
  const PROCESSING_FAILED := "Import processing failed."
  const TEMPORARY_ERROR := "Import processing encountered a temporary database error."

  function NewJob(maxAttempts: nat): (r: Job)
    ensures 1 <= maxAttempts ==> Sound(r) && Claimable(r)
  {
    Job(PENDING, 0, 0, 0, 0, 0, maxAttempts, None, None, None, None, None, None, None, None)
  }

  predicate Claimable(job: Job) {
    job.status == PENDING && job.attemptCount < job.maxAttempts
  }

  /** The guard of every progress update: the row is being processed under this token. */
  predicate Owned(job: Job, token: Token) {
    job.status == PROCESSING && job.processingToken == Some(token)
  }

  function Claim(job: Job, token: Token, worker: string, now: nat): (r: Job)
    ensures Sound(job) && Claimable(job) ==> Sound(r) && Owned(r, token) && Life(r) < Life(job)
  {
    job.(status := PROCESSING, processingToken := Some(token), lockedByWorker := Some(worker),
         attemptCount := job.attemptCount + 1, startedAt := Some(now), lastHeartbeatAt := Some(now))
  }

  function Reset(job: Job): (r: Job)
    ensures Sound(job) && job.status == PROCESSING ==> Sound(r) && Life(r) == Life(job)
  {
    job.(totalRows := 0, processedRows := 0, successCount := 0, failedCount := 0, finishedAt := None)
  }

  function RecordChunk(job: Job, total: nat, success: nat, failed: nat): (r: Job)
    ensures Sound(job) ==> Sound(r) && Life(r) == Life(job)
  {
    job.(totalRows := job.totalRows + total, processedRows := job.processedRows + total,
         successCount := job.successCount + success, failedCount := job.failedCount + failed)
  }

  function Heartbeat(job: Job, now: nat): (r: Job)
    ensures Sound(job) ==> Sound(r) && Life(r) == Life(job)
  {
    job.(lastHeartbeatAt := Some(now))
  }

  function Complete(job: Job, total: nat, success: nat, failed: nat, now: nat): (r: Job)
    ensures Sound(job) && job.status == PROCESSING ==> Sound(r) && Terminal(r) && Life(r) < Life(job)
  {
    job.(status := COMPLETED, totalRows := total, processedRows := total, successCount := success,
         failedCount := failed, finishedAt := Some(now), lastHeartbeatAt := Some(now),
         processingToken := None, lockedByWorker := None)
  }

  function Fail(job: Job, reason: string, now: nat): (r: Job)
    ensures Sound(job) && !Terminal(job) ==> Sound(r) && Terminal(r) && Life(r) < Life(job)
  {
    job.(status := FAILED, failureReason := Some(reason), lastFailureReason := Some(reason),
         finishedAt := Some(now), processingToken := None, lockedByWorker := None)
  }

  function Requeue(job: Job, reason: string): (r: Job)
    ensures Sound(job) && job.status == PROCESSING && job.attemptCount < job.maxAttempts ==>
              Sound(r) && Claimable(r) && Life(r) < Life(job)
  {
    job.(status := PENDING, failureReason := None, lastFailureReason := Some(reason),
         processingToken := None, lockedByWorker := None)
  }

  /** The watchdog's failure keeps the two reasons apart. */
  function FailStale(job: Job, now: nat): Job {
    job.(status := FAILED, processingToken := None, lockedByWorker := None,
         lastFailureReason := Some(STALE_HEARTBEAT), failureReason := Some(MAX_ATTEMPTS), finishedAt := Some(now))
  }

  function RequeueStale(job: Job, now: nat): Job {
    job.(status := PENDING, processingToken := None, lockedByWorker := None, failureReason := None,
         lastFailureReason := Some(STALE_HEARTBEAT), lastRequeuedAt := Some(now), finishedAt := None,
         lastHeartbeatAt := None)
  }

  predicate Stale(job: Job, before: nat) {
    job.status == PROCESSING && job.lastHeartbeatAt.Some? && job.lastHeartbeatAt.value < before
  }

  /** One row of the watchdog's batch. */
  function RecoverStale(job: Job, now: nat): (r: Job)
    ensures Sound(job) && job.status == PROCESSING ==>
              Sound(r) && (Terminal(r) || Claimable(r)) && Life(r) < Life(job)
  {
    if job.attemptCount >= job.maxAttempts then FailStale(job, now) else RequeueStale(job, now)
  }

  /** Dispatch exhaustion fails the import only while it is pending. */
  function FailPending(job: Job, now: nat): (r: Job)
    ensures Sound(job) ==> Sound(r) && r.status != PENDING
  {
    if job.status == PENDING then Fail(job, DISPATCH_EXHAUSTED, now) else job
  }

  /** What holds of the row in every reachable state. */
  predicate Sound(job: Job) {
    && job.attemptCount <= job.maxAttempts
    && (job.startedAt.Some? <==> 1 <= job.attemptCount)
    && (job.status == PENDING ==>
          job.attemptCount < job.maxAttempts && job.processingToken.None? && job.lockedByWorker.None?)
    && (job.status == PROCESSING ==>
          && 1 <= job.attemptCount
          && job.processingToken.Some? && job.lockedByWorker.Some? && job.lastHeartbeatAt.Some?)
    && (job.status == COMPLETED || job.status == FAILED ==>
          job.processingToken.None? && job.lockedByWorker.None? && job.finishedAt.Some?)
    && (job.status == FAILED <==> job.failureReason.Some?)
  }

  /** Status changes still possible; it bounds the rest of the import's life. */
  function Life(job: Job): nat
    requires job.attemptCount <= job.maxAttempts
  {
    match job.status
    case PENDING => 2 * (job.maxAttempts - job.attemptCount)
    case PROCESSING => 2 * (job.maxAttempts - job.attemptCount) + 1
    case _ => 0
  }

  /** A status change uses up life; anything else keeps it. */
  predicate Ages(before: Job, after: Job)
    requires before.attemptCount <= before.maxAttempts && after.attemptCount <= after.maxAttempts
  {
    if before.status == after.status then Life(after) == Life(before) else Life(after) < Life(before)
  }

  predicate Terminal(job: Job) {
    job.status == COMPLETED || job.status == FAILED
  }
}
