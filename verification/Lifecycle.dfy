/**
 * The life of one import as a transition system. The steps are the committed transactions of the
 * publisher, the workers and the watchdog, the broker's deliveries, and the failures in between.
 * The other imports are the environment: `others` is the set of codes they hold at that moment.
 *
 * A transaction takes effect at its guarded update; a transaction whose guard fails leaves nothing.
 * The fields after `tokens` are history: no guard reads them.
 */
module Lifecycle {
  import opened Domain
  import opened Verdicts
  import J = ImportJobs
  import O = Outbox

  datatype Config = Config(
    id: ImportId,
    maxAttempts: nat,
    outboxMaxAttempts: nat,
    delays: seq<nat>,
    chunks: seq<seq<PreparedRow>>)

  /** Settings demand positive maxima and four delays; the parser numbers rows apart and yields no empty chunk. */
  predicate Configured(c: Config) {
    && 1 <= c.maxAttempts
    && 1 <= c.outboxMaxAttempts
    && |c.delays| == 4
    && DistinctNumbers(Flatten(c.chunks))
    && forall k :: 0 <= k < |c.chunks| ==> c.chunks[k] != []
  }

  // --- Processes --------------------------------------------------------------------------------

  datatype Sending = Untried | Sent | Raised

  /** A publisher between its claim and the record of the outcome. */
  datatype Publisher = Publisher(claimed: O.ClaimedEvent, sending: Sending)

  datatype Claim = Claim(token: Token, attempt: nat)

  datatype Sums = Sums(total: nat, success: nat, failed: nat)

  /** Where a worker stands; every phase holds the unacknowledged message. */
  datatype Phase =
    | Delivered
    | Claimed(claim: Claim)
    | Running(claim: Claim, done: nat, sums: Sums)
    | LookedUp(claim: Claim, done: nat, sums: Sums, found: set<Code>, result: ChunkResult)
    | Conflicted(claim: Claim, done: nat, sums: Sums, found: set<Code>, result: ChunkResult)
    | Troubled(claim: Claim)
    | Failing(claim: Claim, reason: string)
    | Requeued(claim: Claim)

  /**
   * A message with the retry count it carries. A rejected message of the dispatch queue is dead-lettered, which
   * is a queue that workers consume too; from there a rejection leads nowhere.
   */
  datatype Message = Message(retries: nat, dead: bool)

  const FRESH := Message(0, false)

  datatype Worker = Worker(message: Message, phase: Phase)

  type WorkerId = nat

  /** What the import has in the shipments and import_errors tables, with the codes found when it was stored. */
  datatype Stored = Stored(shipments: seq<Shipment>, errors: multiset<ErrorRow>, found: seq<set<Code>>)

  const NOTHING := Stored([], multiset{}, [])

  /** The import's outbox rows and the publishers working on them, with the history of both. */
  datatype Box = Box(
    events: map<O.EventId, O.Event>,
    publishers: map<Token, Publisher>,
    tokens: set<Token>,
    dispatched: set<Token>,
    failures: map<O.EventId, nat>,
    publishedUnder: map<O.EventId, Token>)

  datatype State = State(
    job: J.Job,
    stored: Stored,
    box: Box,
    queue: multiset<Message>,
    workers: map<WorkerId, Worker>,
    tokens: set<Token>,
    preClaimRetries: nat)

  /** What create_import commits: a pending job and one dispatch intent. */
  predicate Created(c: Config, s: State, e: O.EventId, now: nat) {
    s == State(J.NewJob(c.maxAttempts), NOTHING,
               Box(map[e := O.NewEvent(c.id, now)], map[], {}, {}, map[e := 0], map[]), multiset{}, map[], {}, 0)
  }

  // --- Publishers -------------------------------------------------------------------------------

  datatype PublisherAction =
    | ClaimEvent(e: O.EventId, token: Token, now: nat)
    | DispatchSucceeds(token: Token)
    | DispatchRaises(token: Token, delivered: bool)
    | RecordSuccess(token: Token, now: nat)
    | RecordFailure(token: Token, error: string, now: nat)
    | PublisherDies(token: Token)
    | RecoverClaim(e: O.EventId, now: nat)

  predicate PublisherEnabled(s: State, a: PublisherAction) {
    match a
    case ClaimEvent(e, token, now) => e in s.box.events && O.Due(s.box.events[e], now) && token !in s.box.tokens
    case DispatchSucceeds(token) => token in s.box.publishers && s.box.publishers[token].sending.Untried?
    case DispatchRaises(token, _) => token in s.box.publishers && s.box.publishers[token].sending.Untried?
    case RecordSuccess(token, _) => token in s.box.publishers && s.box.publishers[token].sending.Sent?
    case RecordFailure(token, _, _) => token in s.box.publishers && s.box.publishers[token].sending.Raised?
    case PublisherDies(token) => token in s.box.publishers
    case RecoverClaim(e, now) => e in s.box.events && O.StaleClaim(s.box.events[e], now)
  }

  predicate HeldBy(box: Box, e: O.EventId, token: Token) {
    e in box.events && O.Held(box.events[e], token)
  }

  function ClaimEventNext(c: Config, box: Box, e: O.EventId, token: Token, now: nat): Box
    requires e in box.events
  {
    var event := box.events[e];
    box.(events := box.events[e := O.Claim(event, token, now)],
         publishers := box.publishers[token :=
           Publisher(O.ClaimedEvent(e, event.importId, token, event.attemptCount), Untried)],
         tokens := box.tokens + {token})
  }

  function SendingNext(box: Box, token: Token, sending: Sending): Box
    requires token in box.publishers
  {
    box.(publishers := box.publishers[token := box.publishers[token].(sending := sending)],
         dispatched := if sending.Sent? then box.dispatched + {token} else box.dispatched)
  }

  function RecordSuccessNext(box: Box, token: Token, now: nat): Box
    requires token in box.publishers
  {
    var e := box.publishers[token].claimed.outboxId;
    var done := box.(publishers := box.publishers - {token});
    if HeldBy(box, e, token)
    then done.(events := box.events[e := O.MarkPublished(box.events[e], now)],
               publishedUnder := box.publishedUnder[e := token])
    else done
  }

  function PlanFor(c: Config, claimed: O.ClaimedEvent): O.FailurePlan {
    O.PlanFailure(claimed.attemptCount + 1, c.outboxMaxAttempts, c.delays)
  }

  /** Without a delay for this attempt the publisher fails before it opens the transaction. */
  function RecordFailureNext(c: Config, box: Box, token: Token, error: string, now: nat): Box
    requires token in box.publishers
  {
    var claimed := box.publishers[token].claimed;
    var e := claimed.outboxId;
    var plan := PlanFor(c, claimed);
    var done := box.(publishers := box.publishers - {token});
    if HeldBy(box, e, token) && !plan.NoSuchDelay?
    then done.(events := box.events[e := O.MarkFailure(box.events[e], claimed.attemptCount + 1, plan, error, now)],
               failures := box.failures[e := (if e in box.failures then box.failures[e] else 0) + 1])
    else done
  }

  function RecoverClaimNext(c: Config, box: Box, e: O.EventId, now: nat): Box
    requires e in box.events
  {
    var event := box.events[e];
    if event.attemptCount >= c.outboxMaxAttempts
    then box.(events := box.events[e := O.FailStale(event)])
    else box.(events := box.events[e := O.RequeueStale(event, now)])
  }

  function BoxNext(c: Config, box: Box, a: PublisherAction): Box
    requires if a.ClaimEvent? || a.RecoverClaim? then a.e in box.events else a.token in box.publishers
  {
    match a
    case ClaimEvent(e, token, now) => ClaimEventNext(c, box, e, token, now)
    case DispatchSucceeds(token) => SendingNext(box, token, Sent)
    case DispatchRaises(token, _) => SendingNext(box, token, Raised)
    case RecordSuccess(token, now) => RecordSuccessNext(box, token, now)
    case RecordFailure(token, error, now) => RecordFailureNext(c, box, token, error, now)
    case PublisherDies(token) => box.(publishers := box.publishers - {token})
    case RecoverClaim(e, now) => RecoverClaimNext(c, box, e, now)
  }

  /** The transaction also fails the import: its event is exhausted and still held. */
  predicate Exhausts(c: Config, box: Box, a: PublisherAction) {
    match a
    case RecordFailure(token, _, _) =>
      && token in box.publishers
      && var claimed := box.publishers[token].claimed;
      HeldBy(box, claimed.outboxId, token) && PlanFor(c, claimed).Exhausted?
    case RecoverClaim(e, _) => e in box.events && box.events[e].attemptCount >= c.outboxMaxAttempts
    case _ => false
  }

  function PublisherNext(c: Config, s: State, a: PublisherAction): State
    requires PublisherEnabled(s, a)
  {
    s.(box := BoxNext(c, s.box, a),
       job := if Exhausts(c, s.box, a) then J.FailPending(s.job, a.now) else s.job,
       queue := if a.DispatchSucceeds? || (a.DispatchRaises? && a.delivered) then s.queue + multiset{FRESH}
                else s.queue)
  }

  // --- The broker -------------------------------------------------------------------------------

  datatype BrokerAction =
    | Deliver(message: Message, w: WorkerId)
    | Duplicate(message: Message)
    | Redeliver(w: WorkerId)

  predicate BrokerEnabled(s: State, a: BrokerAction) {
    match a
    case Deliver(message, w) => message in s.queue && w !in s.workers
    case Duplicate(message) => message in s.queue
    case Redeliver(w) => w in s.workers
  }

  function BrokerNext(s: State, a: BrokerAction): State
    requires BrokerEnabled(s, a)
  {
    match a
    case Deliver(message, w) =>
      s.(queue := s.queue - multiset{message}, workers := s.workers[w := Worker(message, Delivered)])
    case Duplicate(message) => s.(queue := s.queue + multiset{message})
    case Redeliver(w) => s.(queue := s.queue + multiset{s.workers[w].message})
  }

  // --- Workers ----------------------------------------------------------------------------------

  /** The worker is done with its message, which is acknowledged. */
  function Ack(s: State, w: WorkerId): State {
    s.(workers := s.workers - {w})
  }

  function Move(s: State, w: WorkerId, phase: Phase): State
    requires w in s.workers
  {
    s.(workers := s.workers[w := s.workers[w].(phase := phase)])
  }

  /** A message for the import, that of a dead worker or a retry, is queued as the worker ends. */
  function Return(s: State, w: WorkerId, message: Message): State {
    Ack(s, w).(queue := s.queue + multiset{message})
  }

  /** Celery sends the message again with one more retry, unless that exceeds `max_retries`. */
  predicate MayRetry(c: Config, message: Message) {
    message.retries + 1 <= c.maxAttempts - 1
  }

  /** The retry goes to the queue its message came from. */
  function Retried(message: Message): Message {
    message.(retries := message.retries + 1)
  }

  /** Celery rejects the message of a retry that cannot be sent, without requeueing it. */
  function Reject(s: State, w: WorkerId): State
    requires w in s.workers
  {
    var message := s.workers[w].message;
    if message.dead then Ack(s, w) else Return(s, w, message.(dead := true))
  }

  /** Up to and including the claim transaction. */
  datatype IntakeAction =
    | ClaimImport(token: Token, name: string, now: nat)
    | FindNothing
    | SkipLockedRow(holder: WorkerId)
    | SkipRowLockedByPublisher(claim: Token)
    | ClaimCommitFails
    | DatabaseErrorBeforeClaim
    | RetryBeforeClaimRejected
    | OtherErrorBeforeClaim

  /**
   * A claim selects the row FOR UPDATE SKIP LOCKED. Another claim in flight locks the row; so does an
   * open chunk transaction, whose inserted rows reference it; so does a publisher failing the import.
   */
  predicate IntakeEnabled(c: Config, s: State, w: WorkerId, a: IntakeAction) {
    && w in s.workers && s.workers[w].phase.Delivered?
    && match a
       case ClaimImport(token, _, _) => J.Claimable(s.job) && token !in s.tokens
       case FindNothing => !J.Claimable(s.job)
       case SkipLockedRow(holder) =>
         && holder != w && holder in s.workers
         && (s.workers[holder].phase.Delivered? || s.workers[holder].phase.LookedUp?)
       case SkipRowLockedByPublisher(claim) =>
         && claim in s.box.publishers && s.box.publishers[claim].sending.Raised?
         && HeldBy(s.box, s.box.publishers[claim].claimed.outboxId, claim)
       case ClaimCommitFails => J.Claimable(s.job)
       case DatabaseErrorBeforeClaim => true
       case RetryBeforeClaimRejected => MayRetry(c, s.workers[w].message)
       case OtherErrorBeforeClaim => true
  }

  function IntakeNext(c: Config, s: State, w: WorkerId, a: IntakeAction): State
    requires IntakeEnabled(c, s, w, a)
  {
    match a
    case ClaimImport(token, name, now) =>
      var job := J.Claim(s.job, token, name, now);
      Move(s, w, Claimed(Claim(token, job.attemptCount))).(job := job, tokens := s.tokens + {token})
    case FindNothing => Ack(s, w)
    case SkipLockedRow(_) => Ack(s, w)
    case SkipRowLockedByPublisher(_) => Ack(s, w)
    case ClaimCommitFails => Ack(s, w)
    case DatabaseErrorBeforeClaim =>
      if MayRetry(c, s.workers[w].message)
      then Return(s, w, Retried(s.workers[w].message)).(preClaimRetries := s.preClaimRetries + 1)
      else Ack(s, w)
    case RetryBeforeClaimRejected => Reject(s, w)
    case OtherErrorBeforeClaim => Ack(s, w)
  }

  /** The chunk transactions of a claimed import. */
  datatype ChunkAction =
    | ResetRows
    | LookUpChunk(others: set<Code>)
    | PersistChunk(others: set<Code>, now: nat)
    | IntegrityFails
    | Reclassify(others: set<Code>)
    | CompleteImport(now: nat)
    | Stop

  function SeenBefore(c: Config, k: nat): set<Code>
    requires k <= |c.chunks|
  {
    CodesOf(Flatten(c.chunks[..k]))
  }

  predicate ChunkEnabled(c: Config, s: State, w: WorkerId, a: ChunkAction) {
    && w in s.workers
    && var phase := s.workers[w].phase;
    match a
    case ResetRows => phase.Claimed?
    case LookUpChunk(_) => phase.Running? && phase.done < |c.chunks|
    case PersistChunk(others, _) =>
      phase.LookedUp? && CodeSet(phase.result.shipments) !! others + CodeSet(s.stored.shipments)
    case IntegrityFails => phase.LookedUp?
    case Reclassify(_) => phase.Conflicted?
    case CompleteImport(_) => phase.Running? && phase.done >= |c.chunks|
    case Stop => (phase.Claimed? || phase.Running? || phase.Conflicted?) && !J.Owned(s.job, phase.claim.token)
  }

  /** The database codes that a lookup of chunk `k` finds: it asks only for codes not seen before. */
  function LookUp(c: Config, shipments: seq<Shipment>, k: nat, others: set<Code>): set<Code>
    requires k < |c.chunks|
  {
    (CodesOf(c.chunks[k]) - SeenBefore(c, k)) * (others + CodeSet(shipments))
  }

  function Looked(c: Config, shipments: seq<Shipment>, phase: Phase, others: set<Code>): Phase
    requires phase.Running? && phase.done < |c.chunks|
  {
    var rows := c.chunks[phase.done];
    var found := LookUp(c, shipments, phase.done, others);
    LookedUp(phase.claim, phase.done, phase.sums, found,
      ResultOf(|rows|, Judge(c.id, rows, SeenBefore(c, phase.done), found)))
  }

  /** One round of the duplicate race: give up when nothing was found, else try the corrected result. */
  function Raced(c: Config, shipments: seq<Shipment>, phase: Phase, others: set<Code>): Phase
    requires phase.Conflicted?
  {
    var stored := others + CodeSet(shipments);
    var r := Reclassified(c.id, phase.result, stored);
    if r.successCount == phase.result.successCount then Failing(phase.claim, J.PROCESSING_FAILED)
    else LookedUp(phase.claim, phase.done, phase.sums,
                  phase.found + ValidCodes(phase.result.validRows) * stored, r)
  }

  function Added(sums: Sums, r: ChunkResult): Sums {
    Sums(sums.total + r.totalRows, sums.success + r.successCount, sums.failed + r.failedCount)
  }

  function Inserted(stored: Stored, found: set<Code>, r: ChunkResult): Stored {
    Stored(stored.shipments + r.shipments, stored.errors + multiset(r.errors), stored.found + [found])
  }

  function ChunkNext(c: Config, s: State, w: WorkerId, a: ChunkAction): State
    requires ChunkEnabled(c, s, w, a)
  {
    var phase := s.workers[w].phase;
    match a
    case ResetRows =>
      if J.Owned(s.job, phase.claim.token)
      then Move(s, w, Running(phase.claim, 0, Sums(0, 0, 0))).(job := J.Reset(s.job), stored := NOTHING)
      else Ack(s, w)
    case LookUpChunk(others) => Move(s, w, Looked(c, s.stored.shipments, phase, others))
    case PersistChunk(_, now) =>
      var r := phase.result;
      if J.Owned(s.job, phase.claim.token)
      then
        Move(s, w, Running(phase.claim, phase.done + 1, Added(phase.sums, r)))
          .(job := J.Heartbeat(J.RecordChunk(s.job, r.totalRows, r.successCount, r.failedCount), now),
            stored := Inserted(s.stored, phase.found, r))
      else Ack(s, w)
    case IntegrityFails => Move(s, w, Conflicted(phase.claim, phase.done, phase.sums, phase.found, phase.result))
    case Reclassify(others) => Move(s, w, Raced(c, s.stored.shipments, phase, others))
    case CompleteImport(now) =>
      if J.Owned(s.job, phase.claim.token)
      then Ack(s, w).(job := J.Complete(s.job, phase.sums.total, phase.sums.success, phase.sums.failed, now))
      else Ack(s, w)
    case Stop => Ack(s, w)
  }

  /** Exceptions, their handlers, and the retry. */
  datatype EndingAction =
    | DatabaseFails
    | ProcessingFails(reason: string)
    | HandleTrouble
    | MarkFailed(now: nat)
    | HandlerRaises
    | Resend
    | ResendRejected
    | Die

  predicate Working(phase: Phase) {
    phase.Claimed? || phase.Running? || phase.LookedUp? || phase.Conflicted?
  }

  predicate EndingEnabled(c: Config, s: State, w: WorkerId, a: EndingAction) {
    && w in s.workers
    && var phase := s.workers[w].phase;
    match a
    case DatabaseFails => Working(phase)
    case ProcessingFails(_) => Working(phase)
    case HandleTrouble => phase.Troubled?
    case MarkFailed(_) => phase.Failing?
    case HandlerRaises => phase.Troubled? || phase.Failing?
    case Resend => phase.Requeued?
    case ResendRejected => phase.Requeued? && MayRetry(c, s.workers[w].message)
    case Die => true
  }

  function EndingNext(c: Config, s: State, w: WorkerId, a: EndingAction): State
    requires EndingEnabled(c, s, w, a)
  {
    var message, phase := s.workers[w].message, s.workers[w].phase;
    match a
    case DatabaseFails => Move(s, w, Troubled(phase.claim))
    case ProcessingFails(reason) => Move(s, w, Failing(phase.claim, reason))
    case HandleTrouble =>
      if phase.claim.attempt >= c.maxAttempts then Move(s, w, Failing(phase.claim, J.MAX_ATTEMPTS))
      else if J.Owned(s.job, phase.claim.token)
      then Move(s, w, Requeued(phase.claim)).(job := J.Requeue(s.job, J.TEMPORARY_ERROR))
      else Ack(s, w)
    case MarkFailed(now) =>
      if J.Owned(s.job, phase.claim.token)
      then Ack(s, w).(job := J.Fail(s.job, phase.reason, now))
      else Ack(s, w)
    case HandlerRaises => Ack(s, w)
    case Resend => if MayRetry(c, message) then Return(s, w, Retried(message)) else Ack(s, w)
    case ResendRejected => Reject(s, w)
    case Die => Return(s, w, message)
  }

  // --- The system -------------------------------------------------------------------------------

  datatype Action =
    | ByPublisher(publisher: PublisherAction)
    | ByBroker(broker: BrokerAction)
    | Intake(w: WorkerId, intake: IntakeAction)
    | Chunk(w: WorkerId, chunk: ChunkAction)
    | Ending(w: WorkerId, ending: EndingAction)
    | ByWatchdog(e: O.EventId, before: nat, now: nat)

  predicate Enabled(c: Config, s: State, a: Action) {
    match a
    case ByPublisher(p) => PublisherEnabled(s, p)
    case ByBroker(b) => BrokerEnabled(s, b)
    case Intake(w, x) => IntakeEnabled(c, s, w, x)
    case Chunk(w, x) => ChunkEnabled(c, s, w, x)
    case Ending(w, x) => EndingEnabled(c, s, w, x)
    case ByWatchdog(e, before, _) => J.Stale(s.job, before) && e !in s.box.events
  }

  /** The watchdog requeues with a replacement intent in the same transaction, or fails the import. */
  function WatchdogNext(c: Config, s: State, e: O.EventId, now: nat): State {
    var job := J.RecoverStale(s.job, now);
    if job.status == J.PENDING
    then s.(job := job, box := s.box.(events := s.box.events[e := O.NewEvent(c.id, now)],
                                      failures := s.box.failures[e := 0]))
    else s.(job := job)
  }

  function Next(c: Config, s: State, a: Action): State
    requires Enabled(c, s, a)
  {
    match a
    case ByPublisher(p) => PublisherNext(c, s, p)
    case ByBroker(b) => BrokerNext(s, b)
    case Intake(w, x) => IntakeNext(c, s, w, x)
    case Chunk(w, x) => ChunkNext(c, s, w, x)
    case Ending(w, x) => EndingNext(c, s, w, x)
    case ByWatchdog(e, _, now) => WatchdogNext(c, s, e, now)
  }

  /**
   * What the protocol leaves to its environment, in every state: crashes of workers and publishers, lost and repeated
   * messages, errors at any point of a worker's run, dispatches that raise with their message sent or not, and other
   * imports whose codes change as they please.
   */
  lemma EnvironmentIsOpen(c: Config, s: State, message: Message, w: WorkerId, token: Token, delivered: bool)
    ensures message in s.queue ==>
              && Enabled(c, s, ByBroker(Duplicate(message)))
              && (w !in s.workers ==> Enabled(c, s, ByBroker(Deliver(message, w))))
    ensures token in s.box.publishers ==>
              && Enabled(c, s, ByPublisher(PublisherDies(token)))
              && (s.box.publishers[token].sending.Untried? ==>
                    Enabled(c, s, ByPublisher(DispatchRaises(token, delivered))))
  {
    hide IntakeEnabled, ChunkEnabled, EndingEnabled;
  }

  lemma WorkersAreOpen(c: Config, s: State, w: WorkerId, others: set<Code>)
    requires w in s.workers
    ensures Enabled(c, s, ByBroker(Redeliver(w))) && Enabled(c, s, Ending(w, Die)) && MayFail(c, s, w)
    ensures var phase := s.workers[w].phase;
            && (phase.Running? && phase.done < |c.chunks| ==> Enabled(c, s, Chunk(w, LookUpChunk(others))))
            && (phase.LookedUp? ==> Enabled(c, s, Chunk(w, IntegrityFails)))
            && (phase.Conflicted? ==> Enabled(c, s, Chunk(w, Reclassify(others))))
  {
    hide PublisherEnabled;
  }

  /** The worker may meet an error where it stands. */
  ghost predicate MayFail(c: Config, s: State, w: WorkerId)
    requires w in s.workers
  {
    match s.workers[w].phase
    case Delivered =>
      Enabled(c, s, Intake(w, DatabaseErrorBeforeClaim)) && Enabled(c, s, Intake(w, OtherErrorBeforeClaim))
    case Troubled(_) => Enabled(c, s, Ending(w, HandlerRaises))
    case Failing(_, _) => Enabled(c, s, Ending(w, HandlerRaises))
    case Requeued(_) =>
      MayRetry(c, s.workers[w].message) ==> Enabled(c, s, Ending(w, ResendRejected))
    case _ =>
      && Enabled(c, s, Ending(w, DatabaseFails))
      && forall reason :: Enabled(c, s, Ending(w, ProcessingFails(reason)))
  }

  /** A run from creation: every action is enabled where it is taken. */
  ghost predicate Run(c: Config, states: seq<State>, actions: seq<Action>) {
    && |states| == |actions| + 1
    && (exists e: O.EventId, now: nat :: Created(c, states[0], e, now))
    && forall i :: 0 <= i < |actions| ==>
         Enabled(c, states[i], actions[i]) && states[i + 1] == Next(c, states[i], actions[i])
  }
}
