/** The outbox over whole runs: retry arithmetic, sound publish results, and dispatch exhaustion. */
module Dispatch {
  import opened Domain
  import opened Lifecycle
  import opened LifecycleInvariant
  import opened LifecycleRuns
  import opened Stranding
  import J = ImportJobs
  import O = Outbox

  // --- Arithmetic -------------------------------------------------------------------------------

  /**
   * An event's attempt count is the number of failures recorded for it: below the maximum while the
   * event is alive, equal to it once it has failed. A held publisher's copy of it is up to date.
   */
  lemma AttemptsCountFailures(c: Config, s: State, e: O.EventId)
    requires Configured(c) && Reachable(c, s) && e in s.box.events
    ensures e in s.box.failures && s.box.events[e].attemptCount == s.box.failures[e] <= c.outboxMaxAttempts
    ensures s.box.events[e].status == O.PENDING || s.box.events[e].status == O.PROCESSING ==>
              s.box.events[e].attemptCount < c.outboxMaxAttempts
    ensures s.box.events[e].status == O.FAILED ==> s.box.events[e].attemptCount == c.outboxMaxAttempts
    ensures forall t | t in s.box.publishers && HeldBy(s.box, e, t) ::
              s.box.publishers[t].claimed.outboxId == e
              && s.box.publishers[t].claimed.attemptCount == s.box.events[e].attemptCount
  {
    ReachableInv(c, s);
    assert EventInv(c, s.box, e);
    forall t | t in s.box.publishers && HeldBy(s.box, e, t)
      ensures s.box.publishers[t].claimed.outboxId == e
              && s.box.publishers[t].claimed.attemptCount == s.box.events[e].attemptCount
    {
      assert PublisherInv(c, s.box, t);
    }
  }

  /** Stale recovery never finds an exhausted claim: its failing branch is dead. */
  lemma StaleRecoveryOnlyRequeues(c: Config, s: State, e: O.EventId, now: nat)
    requires Configured(c) && Reachable(c, s) && PublisherEnabled(s, RecoverClaim(e, now))
    ensures PublisherNext(c, s, RecoverClaim(e, now)) ==
            s.(box := s.box.(events := s.box.events[e := O.RequeueStale(s.box.events[e], now)]))
  {
    AttemptsCountFailures(c, s, e);
  }

  // --- Publish results --------------------------------------------------------------------------

  /** An event is published only if a dispatch succeeded under the very claim that published it. */
  lemma PublishedWasDispatched(c: Config, s: State, e: O.EventId)
    requires Configured(c) && Reachable(c, s) && e in s.box.events && s.box.events[e].status == O.PUBLISHED
    ensures e in s.box.publishedUnder && s.box.publishedUnder[e] in s.box.dispatched
  {
    ReachableInv(c, s);
    assert EventInv(c, s.box, e);
  }

  /** The publishers' part of a step. */
  lemma PublisherPart(c: Config, s: State, a: Action)
    requires Enabled(c, s, a) && a.ByPublisher?
    ensures PublisherEnabled(s, a.publisher) && Next(c, s, a).box == BoxNext(c, s.box, a.publisher)
  {
    hide BoxNext, Exhausts;
  }

  /** Nobody but a publisher changes an event; the watchdog adds pending ones. */
  lemma OthersLeaveEvents(c: Config, s: State, a: Action)
    requires Enabled(c, s, a) && !a.ByPublisher?
    ensures Next(c, s, a).box.tokens == s.box.tokens
    ensures forall e | e in s.box.events ::
              e in Next(c, s, a).box.events && Next(c, s, a).box.events[e] == s.box.events[e]
    ensures forall e | e in Next(c, s, a).box.events && e !in s.box.events ::
              Next(c, s, a).box.events[e].status == O.PENDING
  {
    match a
    case ByBroker(_) =>
    case Intake(w, x) => IntakeFrames(c, s, w, x);
    case Chunk(w, x) => ChunkFrames(c, s, w, x);
    case Ending(w, x) => EndingFrames(c, s, w, x);
    case ByWatchdog(_, _, _) =>
  }

  lemma SettledStep(c: Config, s: State, a: Action, e: O.EventId)
    requires Enabled(c, s, a) && e in s.box.events && O.Settled(s.box.events[e])
    ensures e in Next(c, s, a).box.events && Next(c, s, a).box.events[e] == s.box.events[e]
  {
    hide *;
    if a.ByPublisher? {
      PublisherPart(c, s, a);
      PublishersLeaveSettled(c, s, a.publisher, e);
    } else {
      OthersLeaveEvents(c, s, a);
    }
  }

  lemma PublishersLeaveSettled(c: Config, s: State, p: PublisherAction, e: O.EventId)
    requires PublisherEnabled(s, p) && e in s.box.events && O.Settled(s.box.events[e])
    ensures e in BoxNext(c, s.box, p).events && BoxNext(c, s.box, p).events[e] == s.box.events[e]
  {
  }

  /** Published and failed events never change again. */
  lemma {:induction false} SettledForGood(c: Config, states: seq<State>, actions: seq<Action>, i: nat, j: nat,
          e: O.EventId)
    requires Run(c, states, actions) && i <= j < |states|
    requires e in states[i].box.events && O.Settled(states[i].box.events[e])
    ensures e in states[j].box.events && states[j].box.events[e] == states[i].box.events[e]
    decreases j - i
  {
    hide *;
    if i < j {
      RunLength(c, states, actions);
      RunStep(c, states, actions, j - 1);
      SettledForGood(c, states, actions, i, j - 1, e);
      SettledStep(c, states[j - 1], actions[j - 1], e);
    }
  }

  predicate StepOf(a: Action, token: Token) {
    && a.ByPublisher? && !a.publisher.RecoverClaim?
    && a.publisher.token == token
  }

  lemma OtherPublisherLeavesHeld(c: Config, s: State, p: PublisherAction, token: Token, e: O.EventId)
    requires PublisherEnabled(s, p) && token in s.box.tokens && (p.RecoverClaim? || p.token != token)
    requires HeldBy(BoxNext(c, s.box, p), e, token)
    ensures e in s.box.events && BoxNext(c, s.box, p).events[e] == s.box.events[e]
  {
  }

  lemma HolderUndisturbed(c: Config, s: State, a: Action, token: Token, e: O.EventId)
    requires Enabled(c, s, a) && !StepOf(a, token) && token in s.box.tokens
    requires HeldBy(Next(c, s, a).box, e, token)
    ensures e in s.box.events && Next(c, s, a).box.events[e] == s.box.events[e]
  {
    hide Next, Enabled, BoxNext, BoxInv;
    if a.ByPublisher? {
      PublisherPart(c, s, a);
      OtherPublisherLeavesHeld(c, s, a.publisher, token, e);
    } else {
      OthersLeaveEvents(c, s, a);
    }
  }

  lemma PublishersKeepTokens(c: Config, s: State, p: PublisherAction, token: Token)
    requires PublisherEnabled(s, p) && token in s.box.tokens
    ensures token in BoxNext(c, s.box, p).tokens
  {
  }

  lemma TokensStay(c: Config, s: State, a: Action, token: Token)
    requires Enabled(c, s, a) && token in s.box.tokens
    ensures token in Next(c, s, a).box.tokens
  {
    hide *;
    if a.ByPublisher? {
      PublisherPart(c, s, a);
      PublishersKeepTokens(c, s, a.publisher, token);
    } else {
      OthersLeaveEvents(c, s, a);
    }
  }

  lemma {:induction false} TokensStayIssued(c: Config, states: seq<State>, actions: seq<Action>, i: nat, j: nat,
          token: Token)
    requires Run(c, states, actions) && i <= j < |states| && token in states[i].box.tokens
    ensures token in states[j].box.tokens
    decreases j - i
  {
    hide *;
    if i < j {
      RunLength(c, states, actions);
      TokensStayIssued(c, states, actions, i, j - 1, token);
      TokensStep(c, states, actions, j - 1, token);
    }
  }

  lemma TokensStep(c: Config, states: seq<State>, actions: seq<Action>, k: nat, token: Token)
    requires Run(c, states, actions) && k < |actions| && |states| == |actions| + 1
    requires token in states[k].box.tokens
    ensures token in states[k + 1].box.tokens
  {
    hide *;
    RunStep(c, states, actions, k);
    TokensStay(c, states[k], actions[k], token);
  }

  /**
   * What a publisher may rely on between its own steps: an event that it holds in the end it held all along,
   * and the event is as it was.
   */
  lemma {:induction false} HolderCanRelyOnOthers(
    c: Config, states: seq<State>, actions: seq<Action>, i: nat, j: nat, token: Token, e: O.EventId)
    requires Run(c, states, actions) && i <= j < |states| && token in states[i].box.tokens
    requires forall k :: i <= k < j ==> !StepOf(actions[k], token)
    requires HeldBy(states[j].box, e, token)
    ensures e in states[i].box.events && states[i].box.events[e] == states[j].box.events[e]
    decreases j - i
  {
    hide Next, Enabled, Run;
    if i < j {
      RunLength(c, states, actions);
      RunStep(c, states, actions, j - 1);
      TokensStayIssued(c, states, actions, i, j - 1, token);
      HolderUndisturbed(c, states[j - 1], actions[j - 1], token, e);
      HolderCanRelyOnOthers(c, states, actions, i, j - 1, token, e);
    }
  }

  /** No step gives an event to a claim that was made before. */
  lemma HeldWasHeld(c: Config, s: State, a: Action, token: Token, e: O.EventId)
    requires Enabled(c, s, a) && token in s.box.tokens && HeldBy(Next(c, s, a).box, e, token)
    ensures HeldBy(s.box, e, token)
  {
    hide Next, Enabled, BoxNext, BoxInv;
    if a.ByPublisher? {
      PublisherPart(c, s, a);
      PublishersGiveNothingBack(c, s, a.publisher, token, e);
    } else {
      OthersLeaveEvents(c, s, a);
    }
  }

  lemma PublishersGiveNothingBack(c: Config, s: State, p: PublisherAction, token: Token, e: O.EventId)
    requires PublisherEnabled(s, p) && token in s.box.tokens && HeldBy(BoxNext(c, s.box, p), e, token)
    ensures HeldBy(s.box, e, token)
  {
  }

  /** An event that a claim has lost, or never had, is never held under it again. */
  lemma {:induction false} LostClaimStaysLost(
    c: Config, states: seq<State>, actions: seq<Action>, i: nat, j: nat, token: Token, e: O.EventId)
    requires Run(c, states, actions) && i <= j < |states|
    requires token in states[i].box.tokens && !HeldBy(states[i].box, e, token)
    ensures token in states[j].box.tokens && !HeldBy(states[j].box, e, token)
    decreases j - i
  {
    hide *;
    if i < j {
      RunLength(c, states, actions);
      RunStep(c, states, actions, j - 1);
      LostClaimStaysLost(c, states, actions, i, j - 1, token, e);
      TokensStayIssued(c, states, actions, i, j, token);
      if HeldBy(states[j].box, e, token) {
        HeldWasHeld(c, states[j - 1], actions[j - 1], token, e);
      }
    }
  }

  /** A publisher changes an event only while it holds it, and the import only if it holds its claimed event. */
  lemma PublisherNeedsItsClaim(c: Config, s: State, p: PublisherAction, e: O.EventId)
    requires PublisherEnabled(s, p) && !p.RecoverClaim? && p.token in s.box.tokens && !HeldBy(s.box, e, p.token)
    ensures e in s.box.events ==> e in PublisherNext(c, s, p).box.events
    ensures e in s.box.events && !p.ClaimEvent? ==> PublisherNext(c, s, p).box.events[e] == s.box.events[e]
    ensures p.token in s.box.publishers && s.box.publishers[p.token].claimed.outboxId == e ==>
              PublisherNext(c, s, p).box.events == s.box.events && PublisherNext(c, s, p).job == s.job
  {
  }

  /**
   * A publisher whose claim on an event was taken from it cannot alter that event by any later step; and if it
   * is the event it had claimed, its later steps change no event and no import at all.
   */
  lemma ReplacedPublisherChangesNothing(
    c: Config, states: seq<State>, actions: seq<Action>, i: nat, j: nat, token: Token, e: O.EventId)
    requires Run(c, states, actions) && i <= j < |actions|
    requires token in states[i].box.tokens && !HeldBy(states[i].box, e, token)
    requires StepOf(actions[j], token)
    ensures e in states[j].box.events ==>
              e in states[j + 1].box.events && states[j + 1].box.events[e] == states[j].box.events[e]
    ensures token in states[j].box.publishers && states[j].box.publishers[token].claimed.outboxId == e ==>
              states[j + 1].box.events == states[j].box.events && states[j + 1].job == states[j].job
  {
    LostClaimStaysLost(c, states, actions, i, j, token, e);
    RunLength(c, states, actions);
    RunStep(c, states, actions, j);
    hide Run;
    PublisherNeedsItsClaim(c, states[j], actions[j].publisher, e);
  }

  /** No step loses a recorded failure or an event. */
  lemma StepKeepsAttempts(c: Config, s: State, a: Action, e: O.EventId)
    requires BoxInv(c, s.box) && Enabled(c, s, a) && e in s.box.events
    ensures e in Next(c, s, a).box.events && s.box.events[e].attemptCount <= Next(c, s, a).box.events[e].attemptCount
  {
    hide *;
    if a.ByPublisher? {
      PublisherPart(c, s, a);
      PublisherKeepsAttempts(c, s, a.publisher, e);
    } else {
      OthersLeaveEvents(c, s, a);
    }
  }

  lemma PublisherKeepsAttempts(c: Config, s: State, p: PublisherAction, e: O.EventId)
    requires BoxInv(c, s.box) && PublisherEnabled(s, p) && e in s.box.events
    ensures e in BoxNext(c, s.box, p).events
    ensures s.box.events[e].attemptCount <= BoxNext(c, s.box, p).events[e].attemptCount
  {
    if p.RecordFailure? {
      assert PublisherInv(c, s.box, p.token);
    }
    hide BoxInv;
  }

  /** An event's attempts never decrease, so a recorded failure is never forgotten. */
  lemma {:induction false} AttemptsNeverDecrease(
    c: Config, states: seq<State>, actions: seq<Action>, i: nat, j: nat, e: O.EventId)
    requires Configured(c) && Run(c, states, actions) && i <= j < |states| && e in states[i].box.events
    ensures e in states[j].box.events && states[i].box.events[e].attemptCount <= states[j].box.events[e].attemptCount
    decreases j - i
  {
    hide *;
    if i < j {
      RunLength(c, states, actions);
      RunStep(c, states, actions, j - 1);
      AttemptsNeverDecrease(c, states, actions, i, j - 1, e);
      InvAlongRun(c, states, actions, j - 1);
      InvParts(c, states[j - 1]);
      StepKeepsAttempts(c, states[j - 1], actions[j - 1], e);
    }
  }

  // --- Exhaustion -------------------------------------------------------------------------------

  /** With more than five, no event ever fails: the publisher crashes at the fifth failure, every time. */
  lemma NoEventFails(c: Config, s: State, e: O.EventId)
    requires Configured(c) && Reachable(c, s) && e in s.box.events
    requires c.outboxMaxAttempts > 5
    ensures s.box.events[e].status != O.FAILED && s.box.events[e].attemptCount <= 4
  {
    ReachableInv(c, s);
    assert EventInv(c, s.box, e);
  }

  lemma RaiseStep(c: Config, s: State, token: Token) returns (s': State)
    requires Reachable(c, s) && token in s.box.publishers && s.box.publishers[token].sending.Untried?
    ensures Reachable(c, s')
    ensures s' == s.(box := SendingNext(s.box, token, Raised))
  {
    var a := ByPublisher(DispatchRaises(token, false));
    s' := Next(c, s, a);
    ReachableNext(c, s, a);
  }

  lemma FailStep(c: Config, s: State, token: Token) returns (s': State)
    requires Reachable(c, s) && token in s.box.publishers && s.box.publishers[token].sending.Raised?
    ensures Reachable(c, s')
    ensures var a := RecordFailure(token, "ConnectionError", 0);
            s' == s.(box := RecordFailureNext(c, s.box, token, "ConnectionError", 0),
                     job := if Exhausts(c, s.box, a) then J.FailPending(s.job, 0) else s.job)
  {
    var a := ByPublisher(RecordFailure(token, "ConnectionError", 0));
    s' := Next(c, s, a);
    ReachableNext(c, s, a);
  }

  /** No publisher is at work, and event `e` is pending after `n` failures. */
  predicate PendingAfter(s: State, e: O.EventId, n: nat) {
    && s.box.publishers == map[] && e in s.box.events
    && s.box.events[e].status == O.PENDING && s.box.events[e].attemptCount == n
  }

  /** One more failed dispatch: the event is rescheduled, or it is exhausted and takes a pending import with it. */
  lemma FailOnce(c: Config, s: State, e: O.EventId, n: nat, token: Token) returns (s': State)
    requires Configured(c) && Reachable(c, s) && PendingAfter(s, e, n) && token !in s.box.tokens
    requires !O.PlanFailure(n + 1, c.outboxMaxAttempts, c.delays).NoSuchDelay?
    ensures Reachable(c, s')
    ensures s'.workers == s.workers && s'.queue == s.queue && s'.tokens == s.tokens && s'.stored == s.stored
    ensures s'.box.tokens == s.box.tokens + {token}
    ensures if n + 1 < c.outboxMaxAttempts then PendingAfter(s', e, n + 1) && s'.job == s.job
            else e in s'.box.events && s'.box.events[e].status == O.FAILED && s'.job == J.FailPending(s.job, 0)
  {
    hide Reachable;
    var s1 := ClaimStep(c, s, e, token);
    var s2 := RaiseStep(c, s1, token);
    s' := FailStep(c, s2, token);
  }

  lemma FreshToken(tokens: set<Token>) returns (t: Token)
    ensures t !in tokens
  {
    if tokens == {} {
      t := 0;
    } else {
      t := MaxToken(tokens) + 1;
    }
  }

  ghost function MaxToken(tokens: set<Token>): (m: Token)
    requires tokens != {}
    ensures forall t | t in tokens :: t <= m
  {
    var t :| t in tokens;
    if tokens == {t} then t
    else
      assert tokens - {t} != {};
      var m := MaxToken(tokens - {t});
      assert forall u | u in tokens :: u == t || u in tokens - {t};
      if t < m then m else t
  }

  /** With at most five attempts, repeated failures exhaust a pending event and fail a pending import. */
  lemma {:induction false} FailUntilExhausted(c: Config, s: State, e: O.EventId, n: nat) returns (s': State)
    requires Configured(c) && Reachable(c, s) && PendingAfter(s, e, n)
    requires n < c.outboxMaxAttempts <= 5
    ensures Reachable(c, s')
    ensures s'.workers == s.workers && s'.queue == s.queue && s'.job == J.FailPending(s.job, 0)
    ensures e in s'.box.events && s'.box.events[e].status == O.FAILED
    decreases c.outboxMaxAttempts - n
  {
    var token := FreshToken(s.box.tokens);
    s' := FailOnce(c, s, e, n, token);
    if n + 1 < c.outboxMaxAttempts {
      s' := FailUntilExhausted(c, s', e, n + 1);
    }
  }

  /** Dispatch can be exhausted, and a never dispatched import fail, exactly when the maximum is at most five. */
  lemma ExhaustionIsReachableExactly(c: Config)
    requires Configured(c)
    ensures (exists s, e :: Reachable(c, s) && e in s.box.events && s.box.events[e].status == O.FAILED)
       <==> c.outboxMaxAttempts <= 5
  {
    if c.outboxMaxAttempts <= 5 {
      var s0 := State(J.NewJob(c.maxAttempts), NOTHING,
                      Box(map[0 := O.NewEvent(c.id, 0)], map[], {}, {}, map[0 := 0], map[]), multiset{}, map[], {},
                      0);
      ReachableCreated(c, s0, 0, 0);
      var s := FailUntilExhausted(c, s0, 0, 0);
      assert Reachable(c, s) && 0 in s.box.events && s.box.events[0].status == O.FAILED;
    } else {
      forall s, e | Reachable(c, s) && e in s.box.events ensures s.box.events[e].status != O.FAILED {
        NoEventFails(c, s, e);
      }
    }
  }

  // --- The reason recorded on exhaustion --------------------------------------------------------

  /** Exhaustion fails a pending import saying that processing never started; that is so only for a first attempt. */
  lemma NeverStartedIsTrueExactly(c: Config, s: State, a: PublisherAction)
    requires Configured(c) && Reachable(c, s) && PublisherEnabled(s, a) && Exhausts(c, s.box, a)
    ensures var job' := PublisherNext(c, s, a).job;
            && (job' != s.job <==> s.job.status == J.PENDING)
            && (s.job.status == J.PENDING ==>
                  && job'.status == J.FAILED && job'.failureReason == Some(J.DISPATCH_EXHAUSTED)
                  && (job'.startedAt.None? <==> s.job.attemptCount == 0))
  {
    ReachableInv(c, s);
  }

  /** A started import, with a message for it queued, can be failed as one that never started. */
  lemma StartedImportFailsAsNeverStarted(c: Config)
    requires Configured(c) && 2 <= c.maxAttempts && c.outboxMaxAttempts <= 5
    ensures exists s ::
              && Reachable(c, s) && s.job.status == J.FAILED
              && s.job.failureReason == Some(J.DISPATCH_EXHAUSTED)
              && s.job.attemptCount == 1 && s.job.startedAt.Some? && s.queue == multiset{FRESH}
  {
    var s1 := FirstClaim(c);
    var redeliver := ByBroker(Redeliver(0));
    var s2 := Next(c, s1, redeliver);
    ReachableNext(c, s1, redeliver);
    var s3 := TakeOver(c, s2);
    var s4 := FailUntilExhausted(c, s3, 1, 0);
  }

  lemma TakeOver(c: Config, s: State) returns (s': State)
    requires Configured(c) && Reachable(c, s) && 2 <= c.maxAttempts
    requires s.job == J.Claim(J.NewJob(c.maxAttempts), 0, "worker", 0) && s.box.publishers == map[]
        && s.box.events.Keys == {0}
    ensures Reachable(c, s') && PendingAfter(s', 1, 0)
    ensures s'.queue == s.queue && s'.job == J.RequeueStale(s.job, 1)
  {
    var a := ByWatchdog(1, 1, 1);
    s' := Next(c, s, a);
    ReachableNext(c, s, a);
  }
}
