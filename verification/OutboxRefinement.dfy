/**
 * Publishers and watchdog take steps of the lifecycle too: what their transactions do to outbox and jobs is, for each
 * import, one step of `Lifecycle` or nothing.
 */
module OutboxRefinement {
  import opened Domain
  import opened Database
  import opened Lifecycle
  import opened PublishOutbox
  import opened OutboxRepositories
  import J = ImportJobs
  import O = Outbox

  function EventsOf(id: ImportId, events: map<O.EventId, O.Event>): map<O.EventId, O.Event> {
    map e | e in events && events[e].importId == id :: events[e]
  }

  /** Job row and outbox are, for this import, as the state says. */
  predicate ShowsOutbox(c: Config, s: State, store: Store) {
    && c.id in store.tables.jobs && s.job == store.tables.jobs[c.id]
    && s.box.events == EventsOf(c.id, store.events)
  }

  /** An event changes in place. */
  lemma EventChanged(id: ImportId, events: map<O.EventId, O.Event>, e: O.EventId, event: O.Event)
    requires e in events ==> events[e].importId == event.importId
    ensures EventsOf(id, events[e := event]) ==
            if event.importId == id then EventsOf(id, events)[e := event] else EventsOf(id, events)
  {
  }

  /** `OutboxRepository.ClaimDueEvents`, for one event of the batch. */
  lemma EventClaimIsAStep(c: Config, s: State, store: Store, e: O.EventId, token: Token, now: nat)
    requires ShowsOutbox(c, s, store) && e in store.events && O.Due(store.events[e], now)
    requires token !in s.box.tokens
    ensures var event := store.events[e];
            var after := store.(events := store.events[e := O.Claim(event, token, now)]);
            if event.importId == c.id then
              var a := ByPublisher(ClaimEvent(e, token, now));
              && Enabled(c, s, a) && ShowsOutbox(c, Next(c, s, a), after)
              && token in Next(c, s, a).box.publishers
              && Next(c, s, a).box.publishers[token] ==
                   Publisher(O.ClaimedEvent(e, event.importId, token, event.attemptCount), Untried)
            else ShowsOutbox(c, s, after)
  {
    EventChanged(c.id, store.events, e, O.Claim(store.events[e], token, now));
  }

  /** The dispatch of a claimed event. One that raises may have sent its message all the same. */
  lemma DispatchIsAStep(c: Config, s: State, store: Store, world: World, turn: nat, claimed: O.ClaimedEvent,
                        delivered: bool)
    requires ShowsOutbox(c, s, store) && claimed.claimToken in s.box.publishers
    requires s.box.publishers[claimed.claimToken] == Publisher(claimed, Untried)
    ensures var raised := world.dispatch(turn, claimed.importId);
            var a := ByPublisher(if raised.None? then DispatchSucceeds(claimed.claimToken)
                                 else DispatchRaises(claimed.claimToken, delivered));
            && Enabled(c, s, a) && ShowsOutbox(c, Next(c, s, a), store)
            && claimed.claimToken in Next(c, s, a).box.publishers
            && Next(c, s, a).box.publishers[claimed.claimToken] ==
                 Publisher(claimed, if raised.None? then Sent else Raised)
  {
  }

  /** The record of an outcome, as `PublishDueEvents` leaves it in its trail. */
  lemma OutcomeIsAStep(c: Config, s: State, mid: Store, claimed: O.ClaimedEvent, p: Publishing, after: Store)
    requires ShowsOutbox(c, s, mid) && claimed.importId == c.id && claimed.claimToken in s.box.publishers
    requires s.box.publishers[claimed.claimToken] == Publisher(claimed, if p.sent then Sent else Raised)
    requires claimed.outboxId in mid.events && mid.events[claimed.outboxId].importId == c.id
    requires Outcome(mid, claimed, p, after, c.outboxMaxAttempts, c.delays)
    ensures var a := ByPublisher(if p.sent then RecordSuccess(claimed.claimToken, p.now)
                                 else RecordFailure(claimed.claimToken, p.error, p.now));
            && Enabled(c, s, a) && ShowsOutbox(c, Next(c, s, a), after)
            && claimed.claimToken !in Next(c, s, a).box.publishers
  {
    if p.stored.Some? {
      EventChanged(c.id, mid.events, claimed.outboxId, p.stored.value);
    }
    hide EventsOf;
    assert claimed.outboxId in EventsOf(c.id, mid.events)
        && EventsOf(c.id, mid.events)[claimed.outboxId] == mid.events[claimed.outboxId] by {
      EventIsOwn(c.id, mid.events, claimed.outboxId);
    }
  }

  lemma EventIsOwn(id: ImportId, events: map<O.EventId, O.Event>, e: O.EventId)
    requires e in events && events[e].importId == id
    ensures e in EventsOf(id, events) && EventsOf(id, events)[e] == events[e]
  {
  }

  /** The record of another import's outcome does not show, unless it is that one's job. */
  lemma ForeignOutcomeIsNone(c: Config, s: State, mid: Store, claimed: O.ClaimedEvent, p: Publishing, after: Store)
    requires ShowsOutbox(c, s, mid) && claimed.importId != c.id
    requires claimed.outboxId in mid.events && mid.events[claimed.outboxId].importId == claimed.importId
    requires Outcome(mid, claimed, p, after, c.outboxMaxAttempts, c.delays)
    ensures ShowsOutbox(c, s, after)
  {
    if p.stored.Some? {
      EventChanged(c.id, mid.events, claimed.outboxId, p.stored.value);
    }
    hide EventsOf;
  }

  /** Without a delay for its attempt a publisher is gone before its transaction. */
  lemma MissingDelayIsAStep(c: Config, s: State, store: Store, claimed: O.ClaimedEvent, error: string, now: nat)
    requires ShowsOutbox(c, s, store) && claimed.claimToken in s.box.publishers
    requires s.box.publishers[claimed.claimToken] == Publisher(claimed, Raised)
    requires O.PlanFailure(claimed.attemptCount + 1, c.outboxMaxAttempts, c.delays).NoSuchDelay?
    ensures var a := ByPublisher(RecordFailure(claimed.claimToken, error, now));
            && Enabled(c, s, a) && ShowsOutbox(c, Next(c, s, a), store)
            && claimed.claimToken !in Next(c, s, a).box.publishers
  {
  }

  /** `PublishOutboxService.RecoverOne`, for a stale claim of this import. */
  lemma ClaimRecoveryIsAStep(c: Config, s: State, store: Store, e: O.EventId, before: nat, now: nat)
    requires ShowsOutbox(c, s, store) && e in store.events && store.events[e].importId == c.id
    requires O.StaleClaim(store.events[e], before) && before <= now
    ensures var event, a := store.events[e], ByPublisher(RecoverClaim(e, now));
            var failed := event.attemptCount >= c.outboxMaxAttempts;
            var after := Store(
              if failed then store.tables.(jobs := store.tables.jobs[c.id := J.FailPending(s.job, now)])
              else store.tables,
              store.events[e := if failed then O.FailStale(event) else O.RequeueStale(event, now)]);
            Enabled(c, s, a) && ShowsOutbox(c, Next(c, s, a), after)
  {
    var event := store.events[e];
    EventChanged(c.id, store.events, e, O.FailStale(event));
    EventChanged(c.id, store.events, e, O.RequeueStale(event, now));
    EventIsOwn(c.id, store.events, e);
    hide EventsOf;
  }

  /** `RecoverStaleImportsService.RecoverOne`, for this import. */
  lemma ImportRecoveryIsAStep(c: Config, s: State, store: Store, e: O.EventId, before: nat, now: nat)
    requires ShowsOutbox(c, s, store) && J.Stale(store.tables.jobs[c.id], before) && e !in store.events
    ensures var job, a := store.tables.jobs[c.id], ByWatchdog(e, before, now);
            var after := Store(
              store.tables.(jobs := store.tables.jobs[c.id :=
                if job.attemptCount >= job.maxAttempts then J.FailStale(job, now) else J.RequeueStale(job, now)]),
              if job.attemptCount >= job.maxAttempts then store.events else store.events[e := O.NewEvent(c.id, now)]);
            Enabled(c, s, a) && ShowsOutbox(c, Next(c, s, a), after)
  {
    EventChanged(c.id, store.events, e, O.NewEvent(c.id, now));
  }
}
