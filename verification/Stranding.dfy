/**
 * When a pending import still has a way to reach a worker. The promise is that it always does; the
 * lemmas here say exactly which steps break it, and give runs in which it is broken for good.
 */
module Stranding {
  import opened Domain
  import opened Lifecycle
  import opened LifecycleInvariant
  import opened LifecycleRuns
  import opened Outcomes
  import J = ImportJobs
  import O = Outbox

  /** The event will still be dispatched: it is pending, or claimed and not yet dispatched under that claim. */
  predicate Dispatchable(box: Box, e: O.EventId) {
    && e in box.events
    && var event := box.events[e];
    || event.status == O.PENDING
    || (event.status == O.PROCESSING && event.claimToken.Some? && event.claimToken.value !in box.dispatched)
  }

  /** The worker holds a message that it has yet to try, or that it has requeued and has yet to re-send. */
  predicate Waiting(worker: Worker) {
    worker.phase.Delivered? || worker.phase.Requeued?
  }

  predicate HasPath(s: State) {
    || (exists e | e in s.box.events :: Dispatchable(s.box, e))
    || |s.queue| > 0
    || (exists w | w in s.workers :: Waiting(s.workers[w]))
  }

  predicate Stranded(s: State) {
    s.job.status == J.PENDING && !HasPath(s)
  }

  /** The steps after which the message is gone, without its claim having been tried or its retry sent. */
  predicate Drops(c: Config, s: State, a: Action)
    requires Enabled(c, s, a)
  {
    match a
    case Intake(w, SkipLockedRow(holder)) => s.workers[holder].phase.LookedUp?
    case Intake(w, ClaimCommitFails) => true
    case Intake(w, DatabaseErrorBeforeClaim) => !MayRetry(c, s.workers[w].message)
    case Intake(w, RetryBeforeClaimRejected) => s.workers[w].message.dead
    case Intake(w, OtherErrorBeforeClaim) => true
    case Ending(w, Resend) => !MayRetry(c, s.workers[w].message)
    case Ending(w, ResendRejected) => s.workers[w].message.dead
    case _ => false
  }

  predicate PathInv(s: State) {
    s.job.status == J.PENDING ==> HasPath(s)
  }

  // --- Steps that do not drop a message keep the path -------------------------------------------

  lemma PublisherKeepsPath(c: Config, s: State, a: PublisherAction)
    requires BoxInv(c, s.box) && PathInv(s) && PublisherEnabled(s, a)
    ensures PathInv(PublisherNext(c, s, a))
  {
    var s' := PublisherNext(c, s, a);
    if s'.job.status == J.PENDING && |s'.queue| == 0 && !(exists w | w in s'.workers :: Waiting(s'.workers[w])) {
      var e :| e in s.box.events && Dispatchable(s.box, e);
      assert !Exhausts(c, s.box, a);
      hide BoxNext, Exhausts, BoxInv, Dispatchable;
      EventStaysDispatchable(c, s, a, e);
    }
  }

  lemma EventStaysDispatchable(c: Config, s: State, a: PublisherAction, e: O.EventId)
    requires BoxInv(c, s.box) && PublisherEnabled(s, a) && Dispatchable(s.box, e)
    requires !a.DispatchSucceeds? && !Exhausts(c, s.box, a)
    ensures Dispatchable(BoxNext(c, s.box, a), e)
  {
    assert EventInv(c, s.box, e);
    if a.RecordSuccess? || a.RecordFailure? {
      assert PublisherInv(c, s.box, a.token);
    }
    hide BoxInv, EventInv;
  }

  lemma IntakeKeepsPath(c: Config, s: State, w: WorkerId, a: IntakeAction)
    requires JobInv(c, s) && BoxInv(c, s.box) && PathInv(s) && IntakeEnabled(c, s, w, a) && !Drops(c, s, Intake(w, a))
    ensures PathInv(IntakeNext(c, s, w, a))
  {
    var s' := IntakeNext(c, s, w, a);
    match a
    case SkipLockedRow(holder) => assert holder in s'.workers && Waiting(s'.workers[holder]);
    case SkipRowLockedByPublisher(claim) =>
      assert PublisherInv(c, s.box, claim);
      assert Dispatchable(s'.box, s.box.publishers[claim].claimed.outboxId);
    case _ =>
  }

  lemma ChunkLeavesQueue(c: Config, s: State, w: WorkerId, a: ChunkAction)
    requires ChunkEnabled(c, s, w, a)
    ensures w in s.workers && !Waiting(s.workers[w])
    ensures var s' := ChunkNext(c, s, w, a);
            s'.queue == s.queue && (s'.job.status == J.PENDING ==> s.job.status == J.PENDING)
  {
    hide Looked, Raced, Inserted;
  }

  lemma ChunkKeepsPath(c: Config, s: State, w: WorkerId, a: ChunkAction)
    requires PathInv(s) && ChunkEnabled(c, s, w, a)
    ensures PathInv(ChunkNext(c, s, w, a))
  {
    var s' := ChunkNext(c, s, w, a);
    ChunkFrames(c, s, w, a);
    ChunkLeavesQueue(c, s, w, a);
    hide ChunkNext, ChunkEnabled, QueueFrame, Fades, Dispatchable;
    if x :| x in s.workers && Waiting(s.workers[x]) {
      assert x != w;
      assert x in s'.workers && Waiting(s'.workers[x]);
    }
  }

  lemma EndingKeepsPath(c: Config, s: State, w: WorkerId, a: EndingAction)
    requires PathInv(s) && EndingEnabled(c, s, w, a) && !Drops(c, s, Ending(w, a))
    ensures PathInv(EndingNext(c, s, w, a))
  {
    var s' := EndingNext(c, s, w, a);
    EndingFrames(c, s, w, a);
    if s'.job.status == J.PENDING && |s'.queue| == 0 {
      if w in s'.workers && s'.workers[w].phase.Requeued? {
        assert Waiting(s'.workers[w]);
      } else if x :| x in s.workers && Waiting(s.workers[x]) {
        assert x != w;
        assert x in s'.workers && Waiting(s'.workers[x]);
      }
    }
  }

  lemma BrokerKeepsPath(s: State, a: BrokerAction)
    requires PathInv(s) && BrokerEnabled(s, a)
    ensures PathInv(BrokerNext(s, a))
  {
    var s' := BrokerNext(s, a);
    match a
    case Deliver(_, w) => assert Waiting(s'.workers[w]);
    case Duplicate(message) => assert message in s'.queue;
    case Redeliver(w) => assert s.workers[w].message in s'.queue;
  }

  lemma WatchdogKeepsPath(c: Config, s: State, a: Action)
    requires PathInv(s) && Enabled(c, s, a) && a.ByWatchdog?
    ensures PathInv(Next(c, s, a))
  {
    var s' := Next(c, s, a);
    if s'.job.status == J.PENDING {
      assert Dispatchable(s'.box, a.e);
    }
  }

  lemma PathKept(c: Config, s: State, a: Action)
    requires JobInv(c, s) && BoxInv(c, s.box) && PathInv(s) && Enabled(c, s, a) && !Drops(c, s, a)
    ensures PathInv(Next(c, s, a))
  {
    match a
    case ByPublisher(p) => PublisherKeepsPath(c, s, p);
    case ByBroker(b) => BrokerKeepsPath(s, b);
    case Intake(w, x) => IntakeKeepsPath(c, s, w, x);
    case Chunk(w, x) => ChunkKeepsPath(c, s, w, x);
    case Ending(w, x) => EndingKeepsPath(c, s, w, x);
    case ByWatchdog(_, _, _) => WatchdogKeepsPath(c, s, a);
  }

  // --- The promise ------------------------------------------------------------------------------

  lemma NotStrandedAtStart(c: Config, states: seq<State>, actions: seq<Action>)
    requires Run(c, states, actions) && states != []
    ensures !Stranded(states[0])
  {
    var e, now := RunStart(c, states, actions);
    hide Run, Next, Enabled;
    assert Dispatchable(states[0].box, e);
  }

  lemma KeptFromStranding(c: Config, states: seq<State>, actions: seq<Action>, k: nat)
    requires Configured(c) && Run(c, states, actions)
    requires k < |actions| && |states| == |actions| + 1 && !Stranded(states[k])
    requires Enabled(c, states[k], actions[k]) ==> !Drops(c, states[k], actions[k])
    ensures !Stranded(states[k + 1])
  {
    RunStep(c, states, actions, k);
    InvAlongRun(c, states, actions, k);
    InvParts(c, states[k]);
    hide Run, Next, Enabled, Inv, HasPath, Drops;
    PathKept(c, states[k], actions[k]);
  }

  /** In a run in which no step drops a message, a pending import always has a path to a worker. */
  lemma {:induction false} OnlyDropsStrand(c: Config, states: seq<State>, actions: seq<Action>, n: nat)
    requires Configured(c) && Run(c, states, actions) && n < |states|
    requires forall i :: 0 <= i < n ==> !Drops(c, states[i], actions[i])
    ensures !Stranded(states[n])
  {
    hide *;
    if n == 0 {
      NotStrandedAtStart(c, states, actions);
    } else {
      RunLength(c, states, actions);
      OnlyDropsStrand(c, states, actions, n - 1);
      KeptFromStranding(c, states, actions, n - 1);
    }
  }

  /**
   * What the environment can do to a message before the import is claimed, and to one that had been
   * dead-lettered before while its retry is sent. A first rejection is no part of it, nor is the arithmetic of
   * the retries.
   */
  predicate FailsAroundClaim(s: State, a: Action) {
    match a
    case Intake(_, SkipLockedRow(holder)) => holder in s.workers && s.workers[holder].phase.LookedUp?
    case Intake(_, ClaimCommitFails) => true
    case Intake(_, DatabaseErrorBeforeClaim) => true
    case Intake(w, RetryBeforeClaimRejected) => w in s.workers && s.workers[w].message.dead
    case Intake(_, OtherErrorBeforeClaim) => true
    case Ending(w, ResendRejected) => w in s.workers && s.workers[w].message.dead
    case _ => false
  }

  /** Without such a failure, no retry is made before a claim, and Celery's bound refuses none after one. */
  lemma QuietStep(c: Config, s: State, a: Action)
    requires Configured(c) && Reachable(c, s) && Enabled(c, s, a)
    requires s.preClaimRetries == 0 && !FailsAroundClaim(s, a)
    ensures Next(c, s, a).preClaimRetries == 0 && !Drops(c, s, a)
  {
    match a
    case ByPublisher(_) => hide BoxNext, Exhausts;
    case ByBroker(_) =>
    case Intake(w, _) =>
    case Chunk(w, x) => ChunkFrames(c, s, w, x);
    case Ending(w, x) =>
      if x.Resend? {
        RequeuedMayRetry(c, s, w);
      }
    case ByWatchdog(_, _, _) =>
  }

  lemma {:induction false} QuietRun(c: Config, states: seq<State>, actions: seq<Action>, n: nat)
    requires Configured(c) && Run(c, states, actions) && n < |states|
    requires forall i :: 0 <= i < n ==> !FailsAroundClaim(states[i], actions[i])
    ensures states[n].preClaimRetries == 0
    ensures forall i :: 0 <= i < n ==> Enabled(c, states[i], actions[i]) && !Drops(c, states[i], actions[i])
  {
    hide *;
    if n == 0 {
      CreatedQuietly(c, states, actions);
    } else {
      RunLength(c, states, actions);
      QuietRun(c, states, actions, n - 1);
      QuietRunStep(c, states, actions, n - 1);
    }
  }

  lemma CreatedQuietly(c: Config, states: seq<State>, actions: seq<Action>)
    requires Run(c, states, actions)
    ensures states[0].preClaimRetries == 0
  {
    hide Next, Enabled;
  }

  lemma QuietRunStep(c: Config, states: seq<State>, actions: seq<Action>, k: nat)
    requires Configured(c) && Run(c, states, actions)
    requires k < |actions| && |states| == |actions| + 1
    requires !FailsAroundClaim(states[k], actions[k])
    requires states[k].preClaimRetries == 0
    ensures states[k + 1].preClaimRetries == 0
    ensures Enabled(c, states[k], actions[k]) && !Drops(c, states[k], actions[k])
  {
    hide *;
    RunStep(c, states, actions, k);
    ReachableAlongRun(c, states, actions, k);
    QuietStep(c, states[k], actions[k]);
  }

  /**
   * Unless something fails around a claim, a pending import always has a path to a worker: however often
   * workers crash, are replaced or meet database errors after their claims, Celery never refuses their retries,
   * and a message whose retry could not be sent comes back from the dead-letter queue.
   */
  lemma NoImportIsStranded(c: Config, states: seq<State>, actions: seq<Action>, n: nat)
    requires Configured(c) && Run(c, states, actions) && n < |states|
    requires forall i :: 0 <= i < n ==> !FailsAroundClaim(states[i], actions[i])
    ensures states[n].preClaimRetries == 0
    ensures forall i :: 0 <= i < n ==> Enabled(c, states[i], actions[i]) && !Drops(c, states[i], actions[i])
    ensures !Stranded(states[n])
  {
    hide *;
    QuietRun(c, states, actions, n);
    OnlyDropsStrand(c, states, actions, n);
  }

  lemma DropEffect(c: Config, s: State, a: Action)
    requires Enabled(c, s, a) && Drops(c, s, a)
    ensures a.Intake? || a.Ending?
    ensures Next(c, s, a) == Ack(s, a.w)
  {
  }

  /**
   * A step strands the import exactly when it drops a message, the import is pending, and no other
   * message, waiting worker or dispatchable event is left.
   */
  lemma StepStrandsExactly(c: Config, s: State, a: Action)
    requires Configured(c) && Reachable(c, s) && Enabled(c, s, a) && !Stranded(s)
    ensures Stranded(Next(c, s, a)) <==>
              Drops(c, s, a) && s.job.status == J.PENDING && !HasPath(Ack(s, a.w))
  {
    ReachableInv(c, s);
    if Drops(c, s, a) {
      DropEffect(c, s, a);
    } else {
      PathKept(c, s, a);
    }
  }

  // --- Runs that strand an import for good ------------------------------------------------------

  /** Nothing is left that could still act: no message, no process, no event to dispatch. */
  predicate Forgotten(s: State) {
    && s.job.status == J.PENDING
    && s.queue == multiset{} && s.workers == map[] && s.box.publishers == map[]
    && forall e | e in s.box.events :: s.box.events[e].status == O.PUBLISHED || s.box.events[e].status == O.FAILED
  }

  /** A forgotten import stays pending for ever: no step of any process is enabled again. */
  lemma ForgottenForGood(c: Config, s: State, a: Action)
    requires Forgotten(s)
    ensures Stranded(s) && !Enabled(c, s, a)
  {
    assert |s.queue| == 0;
  }

  /** The action is possible in a reachable state that is not stranded, and forgets the import. */
  ghost predicate Forgets(c: Config, s: State, a: Action) {
    Reachable(c, s) && !Stranded(s) && Enabled(c, s, a) && Forgotten(Next(c, s, a))
  }

  lemma ClaimStep(c: Config, s: State, e: O.EventId, token: Token) returns (s': State)
    requires Reachable(c, s) && e in s.box.events && s.box.events[e].status == O.PENDING && token !in s.box.tokens
    ensures Reachable(c, s')
    ensures s' == s.(box := ClaimEventNext(c, s.box, e, token, s.box.events[e].availableAt))
  {
    var a := ByPublisher(ClaimEvent(e, token, s.box.events[e].availableAt));
    s' := Next(c, s, a);
    ReachableNext(c, s, a);
  }

  lemma DispatchStep(c: Config, s: State, token: Token) returns (s': State)
    requires Reachable(c, s) && token in s.box.publishers && s.box.publishers[token].sending.Untried?
    ensures Reachable(c, s')
    ensures s' == s.(box := SendingNext(s.box, token, Sent), queue := s.queue + multiset{FRESH})
  {
    var a := ByPublisher(DispatchSucceeds(token));
    s' := Next(c, s, a);
    ReachableNext(c, s, a);
  }

  lemma RecordStep(c: Config, s: State, token: Token, now: nat) returns (s': State)
    requires Reachable(c, s) && token in s.box.publishers && s.box.publishers[token].sending.Sent?
    ensures Reachable(c, s')
    ensures s' == s.(box := RecordSuccessNext(s.box, token, now))
  {
    var a := ByPublisher(RecordSuccess(token, now));
    s' := Next(c, s, a);
    ReachableNext(c, s, a);
  }

  lemma DeliverStep(c: Config, s: State, w: WorkerId) returns (s': State)
    requires Reachable(c, s) && s.queue == multiset{FRESH} && w !in s.workers
    ensures Reachable(c, s')
    ensures s' == s.(queue := multiset{}, workers := s.workers[w := Worker(FRESH, Delivered)])
  {
    var a := ByBroker(Deliver(FRESH, w));
    s' := Next(c, s, a);
    ReachableNext(c, s, a);
  }

  /** The publisher claims a pending event, dispatches it and records the success; a worker takes the message. */
  lemma PublishAndDeliver(c: Config, s: State, e: O.EventId, token: Token, w: WorkerId) returns (s': State)
    requires Reachable(c, s)
    requires e in s.box.events && s.box.events[e].status == O.PENDING
    requires s.box.publishers == map[] && token !in s.box.tokens
    requires s.queue == multiset{} && w !in s.workers
    ensures Reachable(c, s')
    ensures s' == s.(box := s'.box, workers := s.workers[w := Worker(FRESH, Delivered)])
    ensures s'.box.publishers == map[] && s'.box.tokens == s.box.tokens + {token}
    ensures e in s'.box.events && s'.box.events == s.box.events[e := s'.box.events[e]]
    ensures s'.box.events[e].status == O.PUBLISHED
  {
    hide Reachable;
    var s1 := ClaimStep(c, s, e, token);
    var s2 := DispatchStep(c, s1, token);
    var s3 := RecordStep(c, s2, token, 0);
    s' := DeliverStep(c, s3, w);
  }

  /** The created import, its first message held by worker 0. */
  lemma FirstDelivery(c: Config) returns (s: State)
    requires Configured(c)
    ensures Reachable(c, s)
    ensures s == State(J.NewJob(c.maxAttempts), NOTHING, s.box, multiset{},
                          map[0 := Worker(FRESH, Delivered)], {}, 0)
    ensures s.box.publishers == map[] && s.box.tokens == {0}
    ensures s.box.events.Keys == {0} && s.box.events[0].status == O.PUBLISHED
  {
    var s0 := State(J.NewJob(c.maxAttempts), NOTHING,
                    Box(map[0 := O.NewEvent(c.id, 0)], map[], {}, {}, map[0 := 0], map[]), multiset{}, map[], {},
                    0);
    ReachableCreated(c, s0, 0, 0);
    s := PublishAndDeliver(c, s0, 0, 0, 0);
  }

  /** The ways in which the intake alone drops the message, whatever the configuration. */
  predicate DropsAtIntake(c: Config, a: IntakeAction) {
    || a.ClaimCommitFails? || a.OtherErrorBeforeClaim?
    || (a.DatabaseErrorBeforeClaim? && c.maxAttempts == 1)
  }

  /**
   * One failure around the claim forgets the import: the commit of the claim fails after the claim was
   * noted, so the requeue's guard fails and the run ends normally; or an error before the claim is not
   * retried.
   */
  lemma FailureAroundClaimForgets(c: Config, a: IntakeAction)
    requires Configured(c) && DropsAtIntake(c, a)
    ensures exists s :: Forgets(c, s, Intake(0, a))
  {
    var s := FirstDelivery(c);
    assert IntakeEnabled(c, s, 0, a);
    var s' := Next(c, s, Intake(0, a));
    ReachableNext(c, s, Intake(0, a));
    assert Waiting(s.workers[0]);
    assert Forgets(c, s, Intake(0, a));
  }

  /** Worker 0 claims its first message and goes on to the given phase of its first attempt. */
  lemma FirstClaim(c: Config) returns (s: State)
    requires Configured(c)
    ensures Reachable(c, s)
    ensures s == State(J.Claim(J.NewJob(c.maxAttempts), 0, "worker", 0), NOTHING, s.box, multiset{},
                       map[0 := Worker(FRESH, Claimed(Claim(0, 1)))], {0}, 0)
    ensures s.box.publishers == map[] && s.box.tokens == {0}
    ensures s.box.events.Keys == {0} && s.box.events[0].status == O.PUBLISHED
  {
    var s1 := FirstDelivery(c);
    var a := Intake(0, ClaimImport(0, "worker", 0));
    s := Next(c, s1, a);
    ReachableNext(c, s1, a);
  }

  /** The import is left with worker 0 alone, which holds the message and has not tried the claim. */
  predicate OnlyDelivered(c: Config, s: State, m: Message) {
    && s.job == J.NewJob(c.maxAttempts) && s.stored == NOTHING && s.queue == multiset{} && s.tokens == {}
    && s.workers == map[0 := Worker(m, Delivered)]
    && s.box.publishers == map[] && s.box.events.Keys == {0} && s.box.events[0].status == O.PUBLISHED
  }

  /** A step of worker 0 that queues a message for the import, and its delivery. */
  lemma SendAndDeliver(c: Config, s: State, a: IntakeAction, m: Message, m': Message) returns (s': State)
    requires Reachable(c, s) && OnlyDelivered(c, s, m) && IntakeEnabled(c, s, 0, a)
    requires Next(c, s, Intake(0, a)) == Return(s, 0, m').(preClaimRetries := Next(c, s, Intake(0, a)).preClaimRetries)
    ensures Reachable(c, s') && OnlyDelivered(c, s', m')
  {
    var s1 := Next(c, s, Intake(0, a));
    ReachableNext(c, s, Intake(0, a));
    hide Reachable;
    s' := Next(c, s1, ByBroker(Deliver(m', 0)));
    ReachableNext(c, s1, ByBroker(Deliver(m', 0)));
  }

  /** A database error before the claim sends the message again with one more retry. */
  lemma EarlyRetry(c: Config, s: State, m: Message) returns (s': State)
    requires Reachable(c, s) && OnlyDelivered(c, s, m) && MayRetry(c, m)
    ensures Reachable(c, s') && OnlyDelivered(c, s', Retried(m))
  {
    hide Reachable;
    s' := SendAndDeliver(c, s, DatabaseErrorBeforeClaim, m, Retried(m));
  }

  /** If the retry of such an error cannot be sent, the message goes to the dead-letter queue and to a worker again. */
  lemma FirstRejection(c: Config, s: State, m: Message) returns (s': State)
    requires Reachable(c, s) && OnlyDelivered(c, s, m) && MayRetry(c, m) && !m.dead
    ensures Reachable(c, s') && OnlyDelivered(c, s', m.(dead := true))
  {
    hide Reachable;
    s' := SendAndDeliver(c, s, RetryBeforeClaimRejected, m, m.(dead := true));
  }

  lemma {:induction false} EarlyRetries(c: Config, s: State, r: nat) returns (s': State)
    requires Reachable(c, s) && OnlyDelivered(c, s, Message(r, false)) && r <= c.maxAttempts - 1
    ensures Reachable(c, s') && OnlyDelivered(c, s', Message(c.maxAttempts - 1, false))
    decreases c.maxAttempts - r
  {
    hide Reachable, OnlyDelivered;
    s' := s;
    if r < c.maxAttempts - 1 {
      var s1 := EarlyRetry(c, s, Message(r, false));
      s' := EarlyRetries(c, s1, r + 1);
    }
  }

  lemma ClaimAndRequeue(c: Config, s: State, m: Message) returns (s': State)
    requires Configured(c) && 2 <= c.maxAttempts && Reachable(c, s) && OnlyDelivered(c, s, m)
    ensures Reachable(c, s') && OnlyRequeued(s', m)
  {
    var s1 := Next(c, s, Intake(0, ClaimImport(0, "worker", 0)));
    ReachableNext(c, s, Intake(0, ClaimImport(0, "worker", 0)));
    hide Reachable;
    var s2 := Next(c, s1, Ending(0, DatabaseFails));
    ReachableNext(c, s1, Ending(0, DatabaseFails));
    s' := Next(c, s2, Ending(0, HandleTrouble));
    ReachableNext(c, s2, Ending(0, HandleTrouble));
  }

  /** The import is pending again and left with worker 0 alone, which has requeued it and has yet to re-send. */
  predicate OnlyRequeued(s: State, m: Message) {
    && s.job.status == J.PENDING && s.queue == multiset{}
    && s.workers == map[0 := Worker(m, Requeued(Claim(0, 1)))]
    && s.box.publishers == map[] && s.box.events.Keys == {0} && s.box.events[0].status == O.PUBLISHED
  }

  lemma RequeuedIsClaimable(c: Config, s: State, m: Message)
    requires Configured(c) && Reachable(c, s) && OnlyRequeued(s, m)
    ensures J.Claimable(s.job)
  {
    ReachableInv(c, s);
    hide Reachable, WorkersInv, RetriesInv, BoxInv;
  }

  /** The same after a requeue: the message comes back through the dead-letter queue, and the import can be claimed. */
  lemma FirstRejectionAfterRequeue(c: Config, s: State, m: Message) returns (s': State)
    requires Configured(c) && Reachable(c, s) && OnlyRequeued(s, m) && MayRetry(c, m) && !m.dead
    ensures Reachable(c, s') && s' == s.(workers := map[0 := Worker(m.(dead := true), Delivered)])
    ensures J.Claimable(s'.job)
  {
    RequeuedIsClaimable(c, s, m);
    hide Reachable, J.Claimable;
    var s1 := Next(c, s, Ending(0, ResendRejected));
    ReachableNext(c, s, Ending(0, ResendRejected));
    assert s1 == s.(workers := map[], queue := multiset{m.(dead := true)});
    var a := ByBroker(Deliver(m.(dead := true), 0));
    s' := Next(c, s1, a);
    ReachableNext(c, s1, a);
  }

  /** The last message for the import is gone. */
  lemma DroppedMessageForgets(c: Config, s: State, a: Action)
    requires Reachable(c, s) && Enabled(c, s, a) && Drops(c, s, a) && (a.Intake? || a.Ending?)
    requires (exists m :: OnlyDelivered(c, s, m)) || (exists m :: OnlyRequeued(s, m))
    ensures Forgets(c, s, a)
  {
    DropEffect(c, s, a);
    assert 0 in s.workers && Waiting(s.workers[0]) && a.w == 0;
    hide Next, Enabled, Reachable, Drops;
  }

  /**
   * Retries made before any claim count against the same bound although they use no attempt: after enough of
   * them Celery refuses the retry of an import that has been attempted only once, and the import is forgotten.
   */
  lemma EarlyRetriesUseUpTheBound(c: Config)
    requires Configured(c) && 2 <= c.maxAttempts
    ensures exists s :: Forgets(c, s, Ending(0, Resend))
  {
    hide Reachable, Forgets, Next, OnlyDelivered;
    var m := Message(c.maxAttempts - 1, false);
    var s0 := FirstDelivery(c);
    FirstIsOnlyDelivered(c, s0);
    var s1 := EarlyRetries(c, s0, 0);
    var s := ClaimAndRequeue(c, s1, m);
    DroppedMessageForgets(c, s, Ending(0, Resend));
  }

  lemma FirstIsOnlyDelivered(c: Config, s: State)
    requires s == State(J.NewJob(c.maxAttempts), NOTHING, s.box, multiset{},
                          map[0 := Worker(FRESH, Delivered)], {}, 0)
    requires s.box.publishers == map[] && s.box.events.Keys == {0} && s.box.events[0].status == O.PUBLISHED
    ensures OnlyDelivered(c, s, FRESH)
  {
  }

  /**
   * A message that has been dead-lettered once is lost if its retry cannot be sent either, before the claim or
   * after the requeue: the dead-letter queue has no such queue of its own. The import is then forgotten.
   */
  lemma SecondRejectionForgets(c: Config)
    requires Configured(c) && 2 <= c.maxAttempts
    ensures exists s ::
              Forgets(c, s, Intake(0, RetryBeforeClaimRejected)) && 0 in s.workers && s.workers[0].message.dead
    ensures exists s :: Forgets(c, s, Ending(0, ResendRejected)) && 0 in s.workers && s.workers[0].message.dead
  {
    hide Reachable, Forgets, Next;
    var s0 := FirstDelivery(c);
    FirstIsOnlyDelivered(c, s0);
    var s1 := FirstRejection(c, s0, FRESH);
    DroppedMessageForgets(c, s1, Intake(0, RetryBeforeClaimRejected));
    var s2 := ClaimAndRequeue(c, s1, FRESH.(dead := true));
    DroppedMessageForgets(c, s2, Ending(0, ResendRejected));
  }

  /** Worker 0 has looked up its first chunk when the watchdog takes the import away from it. */
  lemma LookedUpAndReplaced(c: Config) returns (s: State)
    requires Configured(c) && 2 <= c.maxAttempts && c.chunks != []
    ensures Reachable(c, s)
    ensures s.job.status == J.PENDING && s.queue == multiset{} && s.stored == NOTHING
    ensures s.workers.Keys == {0} && s.workers[0].phase.LookedUp?
    ensures s.box.publishers == map[] && s.box.tokens == {0}
    ensures s.box.events.Keys == {0, 1} && s.box.events[0].status == O.PUBLISHED && s.box.events[1].status == O.PENDING
  {
    var s1 := FirstClaim(c);
    var s2 := Next(c, s1, Chunk(0, ResetRows));
    ReachableNext(c, s1, Chunk(0, ResetRows));
    var s3 := LookUpStep(c, s2, 0);
    var a := ByWatchdog(1, 1, 1);
    s := Next(c, s3, a);
    ReachableNext(c, s3, a);
  }

  lemma LookUpStep(c: Config, s: State, w: WorkerId) returns (s': State)
    requires Reachable(c, s) && w in s.workers && s.workers[w].phase.Running? && s.workers[w].phase.done < |c.chunks|
    ensures Reachable(c, s')
    ensures w in s'.workers && s'.workers[w].phase.LookedUp? && s'.workers[w].phase.claim == s.workers[w].phase.claim
    ensures s' == s.(workers := s.workers[w := s'.workers[w]])
  {
    var a := Chunk(w, LookUpChunk({}));
    s' := Next(c, s, a);
    ReachableNext(c, s, a);
  }

  /**
   * The replaced worker's open chunk transaction locks the row by its foreign keys, so the claim of the
   * replacement message skips the row as if it were taken, and the message is acknowledged. The import
   * is then known to the replaced worker alone, which stops at its guard.
   */
  lemma LockedRowStrands(c: Config)
    requires Configured(c) && 2 <= c.maxAttempts && c.chunks != []
    ensures exists s ::
              && Reachable(c, s) && !Stranded(s)
              && Enabled(c, s, Intake(1, SkipLockedRow(0)))
              && Stranded(Next(c, s, Intake(1, SkipLockedRow(0))))
    ensures exists s :: Reachable(c, s) && Forgotten(s)
  {
    var s1 := LookedUpAndReplaced(c);
    var s2 := PublishAndDeliver(c, s1, 1, 1, 1);
    var skip := Intake(1, SkipLockedRow(0));
    assert Enabled(c, s2, skip);
    var s3 := Next(c, s2, skip);
    ReachableNext(c, s2, skip);
    assert s3.workers == map[0 := s2.workers[0]];
    assert Waiting(s2.workers[1]);
    assert Stranded(s3);
    var s4 := StopStep(c, s3);
    assert Forgotten(s4);
  }

  lemma StopStep(c: Config, s: State) returns (s': State)
    requires Reachable(c, s) && s.workers.Keys == {0} && s.workers[0].phase.LookedUp?
    requires s.stored == NOTHING && s.job.status == J.PENDING
    ensures Reachable(c, s')
    ensures s' == s.(workers := map[])
  {
    var a := Chunk(0, PersistChunk({}, 0));
    s' := Next(c, s, a);
    ReachableNext(c, s, a);
  }
}
