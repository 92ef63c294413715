/** What every step of the lifecycle keeps: the job row and its owners, the retries, and the outbox. */
module LifecycleInvariant {
  import opened Domain
  import opened Verdicts
  import opened Lifecycle
  import J = ImportJobs
  import O = Outbox

  // --- The job row and its owners ---------------------------------------------------------------

  predicate JobInv(c: Config, s: State) {
    && J.Sound(s.job)
    && s.job.maxAttempts == c.maxAttempts
    && (s.job.processingToken.Some? ==> s.job.processingToken.value in s.tokens)
  }

  predicate HasClaim(worker: Worker) {
    !worker.phase.Delivered?
  }

  /** A claim was made under an issued token, and whoever still owns the row remembers its attempt. */
  predicate ClaimInv(c: Config, s: State, worker: Worker)
    requires HasClaim(worker)
  {
    var claim := worker.phase.claim;
    && claim.token in s.tokens
    && 1 <= claim.attempt <= s.job.attemptCount
    && (J.Owned(s.job, claim.token) ==> claim.attempt == s.job.attemptCount)
    && (worker.phase.Requeued? ==> claim.attempt < c.maxAttempts && !J.Owned(s.job, claim.token))
  }

  predicate WorkersInv(c: Config, s: State) {
    && (forall w | w in s.workers && HasClaim(s.workers[w]) :: ClaimInv(c, s, s.workers[w]))
    && (forall w, x | w in s.workers && x in s.workers && w != x && HasClaim(s.workers[w]) && HasClaim(s.workers[x]) ::
          s.workers[w].phase.claim.token != s.workers[x].phase.claim.token)
  }

  /** A message has been retried at most once per claim, apart from retries made before any claim. */
  predicate RetriesInv(c: Config, s: State) {
    && (forall m | m in s.queue :: m.retries <= s.job.attemptCount + s.preClaimRetries)
    && (forall w | w in s.workers ::
          if HasClaim(s.workers[w])
          then s.workers[w].message.retries + 1 <= s.workers[w].phase.claim.attempt + s.preClaimRetries
          else s.workers[w].message.retries <= s.job.attemptCount + s.preClaimRetries)
  }

  // --- Frames: what a step leaves alone ---------------------------------------------------------

  /** Tokens are only added, attempts only grow, and an issued token never gains ownership. */
  predicate Fades(s: State, s': State) {
    && s.tokens <= s'.tokens
    && s.job.attemptCount <= s'.job.attemptCount
    && (forall t | t in s.tokens && J.Owned(s'.job, t) ::
          J.Owned(s.job, t) && s'.job.attemptCount == s.job.attemptCount)
  }

  /** Only worker `w` moves: it is gone, it keeps its claim, or it has just made a fresh one. */
  predicate WorkerFrame(c: Config, s: State, s': State, w: WorkerId)
    requires w in s.workers
  {
    && (w !in s'.workers ==> s'.workers == s.workers - {w})
    && (w in s'.workers ==>
          && s'.workers == s.workers[w := s'.workers[w]]
          && s'.workers[w].message == s.workers[w].message
          && (if HasClaim(s.workers[w])
              then
                && HasClaim(s'.workers[w]) && s'.workers[w].phase.claim == s.workers[w].phase.claim
                && (s'.workers[w].phase.Requeued? ==>
                      s'.workers[w].phase.claim.attempt < c.maxAttempts && s'.job.status == J.PENDING)
              else
                && s'.workers[w].phase.Claimed?
                && s'.workers[w].phase.claim.token !in s.tokens
                && s'.workers[w].phase.claim.token in s'.tokens
                && s'.workers[w].phase.claim.attempt == s'.job.attemptCount == s.job.attemptCount + 1))
  }

  /** A message is queued again with its retries, or with one more after a requeue or an early error. */
  predicate QueueFrame(s: State, s': State, w: WorkerId)
    requires w in s.workers
  {
    var m := s.workers[w].message;
    || (s'.queue == s.queue && s'.preClaimRetries == s.preClaimRetries)
    || (s'.queue == s.queue + multiset{m} && s'.preClaimRetries == s.preClaimRetries)
    || (s'.queue == s.queue + multiset{m.(dead := true)} && s'.preClaimRetries == s.preClaimRetries)
    || (s'.queue == s.queue + multiset{Retried(m)} &&
        s'.preClaimRetries == s.preClaimRetries + (if HasClaim(s.workers[w]) then 0 else 1))
  }

  lemma IntakeFrames(c: Config, s: State, w: WorkerId, a: IntakeAction)
    requires IntakeEnabled(c, s, w, a)
    ensures var s' := IntakeNext(c, s, w, a);
            s'.box == s.box && s'.stored == s.stored && WorkerFrame(c, s, s', w) && QueueFrame(s, s', w) && Fades(s, s')
  {
  }

  lemma ChunkFrames(c: Config, s: State, w: WorkerId, a: ChunkAction)
    requires ChunkEnabled(c, s, w, a)
    ensures var s' := ChunkNext(c, s, w, a);
            s'.box == s.box && WorkerFrame(c, s, s', w) && QueueFrame(s, s', w) && Fades(s, s')
  {
    hide Judge, Reclassified, LookUp, ResultOf;
  }

  lemma EndingFrames(c: Config, s: State, w: WorkerId, a: EndingAction)
    requires EndingEnabled(c, s, w, a)
    ensures var s' := EndingNext(c, s, w, a);
            s'.box == s.box && s'.stored == s.stored && WorkerFrame(c, s, s', w) && QueueFrame(s, s', w) && Fades(s, s')
  {
    EndingWorkerFrame(c, s, w, a);
    hide WorkerFrame;
  }

  lemma EndingWorkerFrame(c: Config, s: State, w: WorkerId, a: EndingAction)
    requires EndingEnabled(c, s, w, a)
    ensures WorkerFrame(c, s, EndingNext(c, s, w, a), w)
  {
  }

  /** The heart of fencing: no step gives the row to a token that was issued before. */
  lemma StepFades(c: Config, s: State, a: Action)
    requires Enabled(c, s, a)
    ensures Fades(s, Next(c, s, a))
  {
    match a
    case ByPublisher(_) => hide BoxNext, Exhausts;
    case ByBroker(_) =>
    case Intake(w, x) => IntakeFrames(c, s, w, x);
    case Chunk(w, x) => ChunkFrames(c, s, w, x);
    case Ending(w, x) => EndingFrames(c, s, w, x);
    case ByWatchdog(_, _, _) =>
  }

  // --- The job row ------------------------------------------------------------------------------

  lemma JobInvKeptByEnding(c: Config, s: State, w: WorkerId, a: EndingAction)
    requires JobInv(c, s) && WorkersInv(c, s) && EndingEnabled(c, s, w, a)
    ensures JobInv(c, EndingNext(c, s, w, a))
  {
    assert HasClaim(s.workers[w]) ==> ClaimInv(c, s, s.workers[w]);
  }

  lemma JobInvKeptByChunk(c: Config, s: State, w: WorkerId, a: ChunkAction)
    requires JobInv(c, s) && ChunkEnabled(c, s, w, a)
    ensures JobInv(c, ChunkNext(c, s, w, a))
  {
    hide Looked, Raced, Inserted;
  }

  lemma JobInvKept(c: Config, s: State, a: Action)
    requires JobInv(c, s) && WorkersInv(c, s) && Enabled(c, s, a)
    ensures JobInv(c, Next(c, s, a))
  {
    match a
    case ByPublisher(_) => hide BoxNext, Exhausts;
    case ByBroker(_) =>
    case Intake(_, _) =>
    case Chunk(w, x) => JobInvKeptByChunk(c, s, w, x);
    case Ending(w, x) => JobInvKeptByEnding(c, s, w, x);
    case ByWatchdog(_, _, _) =>
  }

  // --- Workers and retries ----------------------------------------------------------------------

  lemma WorkersInvFrame(c: Config, s: State, s': State)
    requires WorkersInv(c, s) && Fades(s, s')
    requires forall w | w in s'.workers && HasClaim(s'.workers[w]) :: w in s.workers && s'.workers[w] == s.workers[w]
    ensures WorkersInv(c, s')
  {
  }

  lemma WorkersInvMoved(c: Config, s: State, s': State, w: WorkerId)
    requires JobInv(c, s') && WorkersInv(c, s) && Fades(s, s')
    requires w in s.workers && WorkerFrame(c, s, s', w)
    ensures WorkersInv(c, s')
  {
    if w in s'.workers {
      assert HasClaim(s.workers[w]) ==> ClaimInv(c, s, s.workers[w]);
      assert ClaimInv(c, s', s'.workers[w]);
    }
  }

  lemma WorkersInvKept(c: Config, s: State, a: Action)
    requires JobInv(c, s) && WorkersInv(c, s) && Enabled(c, s, a)
    ensures WorkersInv(c, Next(c, s, a))
  {
    var s' := Next(c, s, a);
    StepFades(c, s, a);
    JobInvKept(c, s, a);
    match a
    case ByPublisher(_) => WorkersInvFrame(c, s, s');
    case ByBroker(_) => WorkersInvFrame(c, s, s');
    case Intake(w, x) => IntakeFrames(c, s, w, x); WorkersInvMoved(c, s, s', w);
    case Chunk(w, x) => ChunkFrames(c, s, w, x); WorkersInvMoved(c, s, s', w);
    case Ending(w, x) => EndingFrames(c, s, w, x); WorkersInvMoved(c, s, s', w);
    case ByWatchdog(_, _, _) => WorkersInvFrame(c, s, s');
  }

  lemma RetriesInvMoved(c: Config, s: State, s': State, w: WorkerId)
    requires WorkersInv(c, s) && RetriesInv(c, s) && Fades(s, s')
    requires w in s.workers && WorkerFrame(c, s, s', w) && QueueFrame(s, s', w)
    ensures RetriesInv(c, s')
  {
    assert HasClaim(s.workers[w]) ==> ClaimInv(c, s, s.workers[w]);
  }

  lemma RetriesInvKeptByBroker(c: Config, s: State, b: BrokerAction)
    requires WorkersInv(c, s) && RetriesInv(c, s) && BrokerEnabled(s, b)
    ensures RetriesInv(c, BrokerNext(s, b))
  {
    match b
    case Deliver(_, _) =>
    case Duplicate(_) =>
    case Redeliver(w) => assert HasClaim(s.workers[w]) ==> ClaimInv(c, s, s.workers[w]);
  }

  lemma RetriesInvKept(c: Config, s: State, a: Action)
    requires JobInv(c, s) && WorkersInv(c, s) && RetriesInv(c, s) && Enabled(c, s, a)
    ensures RetriesInv(c, Next(c, s, a))
  {
    var s' := Next(c, s, a);
    StepFades(c, s, a);
    match a
    case ByPublisher(_) =>
    case ByBroker(b) => RetriesInvKeptByBroker(c, s, b);
    case Intake(w, x) => IntakeFrames(c, s, w, x); RetriesInvMoved(c, s, s', w);
    case Chunk(w, x) => ChunkFrames(c, s, w, x); RetriesInvMoved(c, s, s', w);
    case Ending(w, x) => EndingFrames(c, s, w, x); RetriesInvMoved(c, s, s', w);
    case ByWatchdog(_, _, _) =>
  }

  // --- The outbox -------------------------------------------------------------------------------

  /** Each event's attempt count is the number of failures recorded for it; a published one was dispatched. */
  predicate EventInv(c: Config, box: Box, e: O.EventId)
    requires e in box.events
  {
    var event := box.events[e];
    && O.Sound(event, c.outboxMaxAttempts)
    && event.importId == c.id
    && e in box.failures && event.attemptCount == box.failures[e]
    && event.attemptCount <= |c.delays| + (if event.status == O.FAILED then 1 else 0)
    && (event.claimToken.Some? ==> event.claimToken.value in box.tokens)
    && (event.status == O.PUBLISHED <==> e in box.publishedUnder)
    && (e in box.publishedUnder ==> box.publishedUnder[e] in box.dispatched)
  }

  /** A publisher remembers its event as it claimed it; it has sent exactly when its token is marked dispatched. */
  predicate PublisherInv(c: Config, box: Box, t: Token)
    requires t in box.publishers
  {
    var p := box.publishers[t];
    var e := p.claimed.outboxId;
    && t in box.tokens
    && p.claimed.claimToken == t
    && p.claimed.importId == c.id
    && e in box.events
    && (O.Held(box.events[e], t) ==> box.events[e].attemptCount == p.claimed.attemptCount)
    && (p.sending.Sent? <==> t in box.dispatched)
    && (forall f | f in box.events && O.Held(box.events[f], t) :: f == e)
  }

  predicate BoxInv(c: Config, box: Box) {
    && box.dispatched <= box.tokens
    && (forall e | e in box.publishedUnder :: e in box.events)
    && (forall e | e in box.events :: EventInv(c, box, e))
    && (forall t | t in box.publishers :: PublisherInv(c, box, t))
  }

  /** Only event `e` changes, and it is held under an issued token only if it was held under it before. */
  predicate EventChange(box: Box, box': Box, e: O.EventId)
    requires e in box.events
  {
    && e in box'.events && box'.events == box.events[e := box'.events[e]]
    && box.tokens <= box'.tokens && box.dispatched <= box'.dispatched <= box'.tokens
    && (forall f | f in box'.publishedUnder :: f in box.events)
    && (forall f | f in box.events && f != e ::
          && (f in box.failures ==> f in box'.failures && box'.failures[f] == box.failures[f])
          && (f in box'.publishedUnder <==> f in box.publishedUnder)
          && (f in box.publishedUnder ==> box'.publishedUnder[f] == box.publishedUnder[f]))
    && (forall t | t in box.tokens && O.Held(box'.events[e], t) ::
          O.Held(box.events[e], t) && box'.events[e].attemptCount == box.events[e].attemptCount)
  }

  /** A publisher was there before with the same claim, or has just claimed event `e`. */
  predicate PublisherChange(box: Box, box': Box, e: O.EventId, t: Token)
    requires t in box'.publishers
  {
    var p := box'.publishers[t];
    if t in box.tokens
    then
      && t in box.publishers && p.claimed == box.publishers[t].claimed
      && ((p.sending.Sent? <==> t in box'.dispatched) <==> (box.publishers[t].sending.Sent? <==> t in box.dispatched))
    else
      && t in box'.tokens && p.sending.Untried? && t !in box'.dispatched
      && e in box'.events
      && p.claimed == O.ClaimedEvent(e, box'.events[e].importId, t, box'.events[e].attemptCount)
  }

  predicate BoxChange(c: Config, box: Box, box': Box, e: O.EventId) {
    && e in box.events
    && EventChange(box, box', e)
    && EventInv(c, box', e)
    && forall t | t in box'.publishers :: PublisherChange(box, box', e, t)
  }

  lemma BoxInvChanged(c: Config, box: Box, box': Box, e: O.EventId)
    requires BoxInv(c, box) && BoxChange(c, box, box', e)
    ensures BoxInv(c, box')
  {
    forall f | f in box'.events ensures EventInv(c, box', f) {
      assert EventInv(c, box, f);
    }
    forall t | t in box'.publishers ensures PublisherInv(c, box', t) {
      assert PublisherChange(box, box', e, t);
      assert t in box.publishers ==> PublisherInv(c, box, t);
      forall f | f in box'.events && O.Held(box'.events[f], t)
        ensures box'.publishers[t].claimed.outboxId == f
      {
        assert EventInv(c, box, f);
      }
    }
  }

  lemma ClaimEventChange(c: Config, box: Box, e: O.EventId, token: Token, now: nat)
    requires BoxInv(c, box) && e in box.events && O.Due(box.events[e], now) && token !in box.tokens
    ensures BoxChange(c, box, ClaimEventNext(c, box, e, token, now), e)
  {
    assert EventInv(c, box, e);
    forall t | t in box.publishers ensures t != token {
      assert PublisherInv(c, box, t);
    }
  }

  lemma HolderInv(c: Config, box: Box, token: Token)
    requires BoxInv(c, box) && token in box.publishers
    ensures PublisherInv(c, box, token) && EventInv(c, box, box.publishers[token].claimed.outboxId)
    ensures forall t | t in box.publishers :: t in box.tokens
    ensures box.dispatched <= box.tokens && forall e | e in box.publishedUnder :: e in box.events
  {
    assert PublisherInv(c, box, token);
    assert EventInv(c, box, box.publishers[token].claimed.outboxId);
    forall t | t in box.publishers ensures t in box.tokens {
      assert PublisherInv(c, box, t);
    }
  }

  lemma SendingChange(c: Config, box: Box, token: Token, sending: Sending)
    requires BoxInv(c, box) && token in box.publishers && box.publishers[token].sending.Untried?
    requires sending.Sent? || sending.Raised?
    ensures BoxChange(c, box, SendingNext(box, token, sending), box.publishers[token].claimed.outboxId)
  {
    HolderInv(c, box, token);
    hide BoxInv;
  }

  lemma PublisherDiesChange(c: Config, box: Box, token: Token)
    requires BoxInv(c, box) && token in box.publishers
    ensures BoxChange(c, box, box.(publishers := box.publishers - {token}), box.publishers[token].claimed.outboxId)
  {
    HolderInv(c, box, token);
    hide BoxInv;
  }

  /** A recorded outcome: event `e` is no longer held, its publisher is done, and the history of `e` alone grows. */
  lemma RecordedChange(c: Config, box: Box, box': Box, e: O.EventId, token: Token)
    requires e in box.events && e in box'.events && box'.events == box.events[e := box'.events[e]]
    requires box'.events[e].claimToken.None? && EventInv(c, box', e)
    requires box'.publishers == box.publishers - {token}
    requires box'.tokens == box.tokens && box'.dispatched == box.dispatched
    requires (forall t | t in box.publishers :: t in box.tokens) && box.dispatched <= box.tokens
    requires forall f | f in box'.publishedUnder :: f in box.events
    requires forall f | f in box.events && f != e ::
               && (f in box.failures ==> f in box'.failures && box'.failures[f] == box.failures[f])
               && (f in box'.publishedUnder <==> f in box.publishedUnder)
               && (f in box.publishedUnder ==> box'.publishedUnder[f] == box.publishedUnder[f])
    ensures BoxChange(c, box, box', e)
  {
    hide EventInv;
  }

  lemma HeldSuccessChange(c: Config, box: Box, token: Token, now: nat)
    requires BoxInv(c, box) && token in box.publishers && box.publishers[token].sending.Sent?
    requires HeldBy(box, box.publishers[token].claimed.outboxId, token)
    ensures BoxChange(c, box, RecordSuccessNext(box, token, now), box.publishers[token].claimed.outboxId)
  {
    HolderInv(c, box, token);
    hide BoxInv, BoxChange;
    var box', e := RecordSuccessNext(box, token, now), box.publishers[token].claimed.outboxId;
    assert EventInv(c, box', e);
    hide EventInv, PublisherInv;
    RecordedChange(c, box, box', e, token);
  }

  lemma HeldFailureChange(c: Config, box: Box, token: Token, error: string, now: nat)
    requires BoxInv(c, box) && token in box.publishers
    requires HeldBy(box, box.publishers[token].claimed.outboxId, token)
    requires !PlanFor(c, box.publishers[token].claimed).NoSuchDelay?
    ensures BoxChange(c, box, RecordFailureNext(c, box, token, error, now), box.publishers[token].claimed.outboxId)
  {
    HolderInv(c, box, token);
    hide BoxInv, BoxChange;
    var box', e := RecordFailureNext(c, box, token, error, now), box.publishers[token].claimed.outboxId;
    assert EventInv(c, box', e);
    hide EventInv, PublisherInv;
    RecordedChange(c, box, box', e, token);
  }

  lemma RecordSuccessChange(c: Config, box: Box, token: Token, now: nat)
    requires BoxInv(c, box) && token in box.publishers && box.publishers[token].sending.Sent?
    ensures BoxChange(c, box, RecordSuccessNext(box, token, now), box.publishers[token].claimed.outboxId)
  {
    HolderInv(c, box, token);
    PublisherDiesChange(c, box, token);
    hide BoxInv;
    var e := box.publishers[token].claimed.outboxId;
    if HeldBy(box, e, token) {
      hide BoxChange;
      HeldSuccessChange(c, box, token, now);
    }
  }

  lemma RecordFailureChange(c: Config, box: Box, token: Token, error: string, now: nat)
    requires BoxInv(c, box) && token in box.publishers
    ensures BoxChange(c, box, RecordFailureNext(c, box, token, error, now), box.publishers[token].claimed.outboxId)
  {
    HolderInv(c, box, token);
    PublisherDiesChange(c, box, token);
    hide BoxInv;
    var claimed := box.publishers[token].claimed;
    if HeldBy(box, claimed.outboxId, token) && !PlanFor(c, claimed).NoSuchDelay? {
      hide BoxChange;
      HeldFailureChange(c, box, token, error, now);
    }
  }

  lemma RecoverClaimChange(c: Config, box: Box, e: O.EventId, now: nat)
    requires BoxInv(c, box) && e in box.events && O.StaleClaim(box.events[e], now)
    ensures BoxChange(c, box, RecoverClaimNext(c, box, e, now), e)
  {
    assert EventInv(c, box, e);
    forall t | t in box.publishers ensures t in box.tokens {
      assert PublisherInv(c, box, t);
    }
  }

  /** The event a publisher's step is about. */
  function EventOf(box: Box, a: PublisherAction): O.EventId
    requires a.ClaimEvent? || a.RecoverClaim? || a.token in box.publishers
  {
    if a.ClaimEvent? || a.RecoverClaim? then a.e else box.publishers[a.token].claimed.outboxId
  }

  lemma PublisherBoxChange(c: Config, s: State, a: PublisherAction)
    requires BoxInv(c, s.box) && PublisherEnabled(s, a)
    ensures BoxChange(c, s.box, PublisherNext(c, s, a).box, EventOf(s.box, a))
  {
    match a
    case ClaimEvent(e, token, now) => ClaimEventChange(c, s.box, e, token, now);
    case DispatchSucceeds(token) => SendingChange(c, s.box, token, Sent);
    case DispatchRaises(token, _) => SendingChange(c, s.box, token, Raised);
    case RecordSuccess(token, now) => RecordSuccessChange(c, s.box, token, now);
    case RecordFailure(token, error, now) => RecordFailureChange(c, s.box, token, error, now);
    case PublisherDies(token) => PublisherDiesChange(c, s.box, token);
    case RecoverClaim(e, now) => RecoverClaimChange(c, s.box, e, now);
  }

  function WithIntent(c: Config, box: Box, e: O.EventId, now: nat): Box {
    box.(events := box.events[e := O.NewEvent(c.id, now)], failures := box.failures[e := 0])
  }

  lemma EventsWithIntent(c: Config, box: Box, e: O.EventId, now: nat, f: O.EventId)
    requires Configured(c) && BoxInv(c, box) && e !in box.events && f in WithIntent(c, box, e, now).events
    ensures EventInv(c, WithIntent(c, box, e, now), f)
  {
    if f != e {
      assert EventInv(c, box, f);
    }
    hide BoxInv;
  }

  lemma PublishersWithIntent(c: Config, box: Box, e: O.EventId, now: nat, t: Token)
    requires BoxInv(c, box) && e !in box.events && t in box.publishers
    ensures PublisherInv(c, WithIntent(c, box, e, now), t)
  {
    assert PublisherInv(c, box, t);
    hide BoxInv;
  }

  lemma BoxInvWithIntent(c: Config, box: Box, e: O.EventId, now: nat)
    requires Configured(c) && BoxInv(c, box) && e !in box.events
    ensures BoxInv(c, WithIntent(c, box, e, now))
  {
    hide EventInv, PublisherInv, Configured;
    var box' := WithIntent(c, box, e, now);
    forall f | f in box'.events ensures EventInv(c, box', f) {
      EventsWithIntent(c, box, e, now, f);
    }
    forall t | t in box'.publishers ensures PublisherInv(c, box', t) {
      PublishersWithIntent(c, box, e, now, t);
    }
  }

  lemma BoxInvNewIntent(c: Config, s: State, e: O.EventId, now: nat)
    requires Configured(c) && BoxInv(c, s.box) && e !in s.box.events
    ensures BoxInv(c, WatchdogNext(c, s, e, now).box)
  {
    assert WatchdogNext(c, s, e, now).box == s.box || WatchdogNext(c, s, e, now).box == WithIntent(c, s.box, e, now);
    hide *;
    BoxInvWithIntent(c, s.box, e, now);
  }

  lemma BoxInvKept(c: Config, s: State, a: Action)
    requires Configured(c) && BoxInv(c, s.box) && Enabled(c, s, a)
    ensures BoxInv(c, Next(c, s, a).box)
  {
    hide BoxInv, BoxChange;
    match a
    case ByPublisher(p) =>
      PublisherBoxChange(c, s, p);
      BoxInvChanged(c, s.box, Next(c, s, a).box, EventOf(s.box, p));
    case ByBroker(_) =>
    case Intake(w, x) => IntakeFrames(c, s, w, x);
    case Chunk(w, x) => ChunkFrames(c, s, w, x);
    case Ending(w, x) => EndingFrames(c, s, w, x);
    case ByWatchdog(e, _, now) => BoxInvNewIntent(c, s, e, now);
  }
}
