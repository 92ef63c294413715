/** The publisher: it dispatches claimed events outside any transaction and records each outcome under its token. */
module PublishOutbox {
  import opened Domain
  import opened Database
  import opened Batches
  import opened Repositories
  import opened OutboxRepositories
  import J = ImportJobs
  import O = Outbox

  /** What became of one claimed event: was its message sent, when, and what was stored if the claim still stood. */
  datatype Publishing = Publishing(sent: bool, now: nat, error: string, stored: Option<O.Event>)

  /** The outcome is not left without a delay for its attempt. */
  predicate Delayed(c: O.ClaimedEvent, p: Publishing, maxAttempts: nat, delays: seq<nat>) {
    p.sent || !O.PlanFailure(c.attemptCount + 1, maxAttempts, delays).NoSuchDelay?
  }

  function Decided(event: O.Event, c: O.ClaimedEvent, p: Publishing, maxAttempts: nat, delays: seq<nat>): O.Event
    requires Delayed(c, p, maxAttempts, delays)
  {
    if p.sent then O.MarkPublished(event, p.now)
    else
      O.MarkFailure(event, c.attemptCount + 1, O.PlanFailure(c.attemptCount + 1, maxAttempts, delays), p.error, p.now)
  }

  /** The import of an event fails with it if it is still pending. */
  function Bystander(mid: Store, c: O.ClaimedEvent, p: Publishing, maxAttempts: nat): Tables {
    if !p.sent && c.attemptCount + 1 >= maxAttempts && c.importId in mid.tables.jobs
    then mid.tables.(jobs := mid.tables.jobs[c.importId := J.FailPending(mid.tables.jobs[c.importId], p.now)])
    else mid.tables
  }

  /**
   * One claimed event from turn to outcome: others had their turn, and the outcome was stored exactly if the claim
   * still stood then, with the failure of a pending import if the event is exhausted; nothing else happened.
   */
  predicate Outcome(mid: Store, c: O.ClaimedEvent, p: Publishing, after: Store, maxAttempts: nat, delays: seq<nat>) {
    && c.outboxId in mid.events && Delayed(c, p, maxAttempts, delays)
    && var event := mid.events[c.outboxId];
    if O.Held(event, c.claimToken) then
      && p.stored == Some(Decided(event, c, p, maxAttempts, delays))
      && after == Store(Bystander(mid, c, p, maxAttempts), mid.events[c.outboxId := p.stored.value])
    else p.stored.None? && after == mid
  }

  /** Whether the message was sent is for the world to say; a dispatch that raises has its error. */
  predicate Dispatched(world: World, turn: nat, c: O.ClaimedEvent, p: Publishing) {
    var raised := world.dispatch(turn, c.importId);
    p.sent == raised.None? && p.error == raised.GetOr("") && p.now == world.clock(turn + 1)
  }

  /** Tables and outbox after the claim, after each outcome, and the turns of the others in between. */
  predicate Trail(world: World, mine: set<Token>, turn: nat, claimed: seq<O.ClaimedEvent>, log: seq<Publishing>,
                  trail: seq<Store>, maxAttempts: nat, delays: seq<nat>) {
    && |log| <= |claimed| && |trail| == |log| + 1
    && forall i :: 0 <= i < |log| ==>
         && Dispatched(world, turn + i, claimed[i], log[i])
         && Outcome(OutboxTurn(world, mine, turn + i, trail[i]), claimed[i], log[i], trail[i + 1], maxAttempts, delays)
  }

  lemma TrailBegins(world: World, mine: set<Token>, turn: nat, claimed: seq<O.ClaimedEvent>, s: Store,
                    maxAttempts: nat, delays: seq<nat>)
    ensures Trail(world, mine, turn, claimed, [], [s], maxAttempts, delays)
  {
  }

  lemma TrailOn(world: World, mine: set<Token>, turn: nat, claimed: seq<O.ClaimedEvent>, log: seq<Publishing>,
                trail: seq<Store>, maxAttempts: nat, delays: seq<nat>, p: Publishing, after: Store)
    requires Trail(world, mine, turn, claimed, log, trail, maxAttempts, delays) && |log| < |claimed|
    requires Dispatched(world, turn + |log|, claimed[|log|], p)
    requires Outcome(OutboxTurn(world, mine, turn + |log|, trail[|log|]), claimed[|log|], p, after, maxAttempts, delays)
    ensures Trail(world, mine, turn, claimed, log + [p], trail + [after], maxAttempts, delays)
  {
    hide Outcome, OutboxTurn, Dispatched;
    var log', trail' := log + [p], trail + [after];
    assert forall i :: 0 <= i < |log| ==> log'[i] == log[i];
    assert forall i :: 0 <= i < |trail| ==> trail'[i] == trail[i];
  }

  /**
   * An outcome is stored as published exactly where the dispatch was accepted. Where it raised, the event has one
   * more attempt and the error, and is rescheduled, or failed with its last attempt.
   */
  lemma StoredAsDispatched(world: World, mine: set<Token>, turn: nat, claimed: seq<O.ClaimedEvent>,
                           log: seq<Publishing>, trail: seq<Store>, maxAttempts: nat, delays: seq<nat>, i: nat)
    requires Trail(world, mine, turn, claimed, log, trail, maxAttempts, delays) && i < |log| && log[i].stored.Some?
    ensures var raised, event := world.dispatch(turn + i, claimed[i].importId), log[i].stored.value;
            && claimed[i].outboxId in trail[i + 1].events && trail[i + 1].events[claimed[i].outboxId] == event
            && event.claimToken.None?
            && (event.status == O.PUBLISHED <==> raised.None?)
            && (raised.None? ==> event.publishedAt == Some(world.clock(turn + i + 1)) && event.lastError.None?)
            && (raised.Some? ==>
                  && event.attemptCount == claimed[i].attemptCount + 1 && event.lastError == raised
                  && if event.attemptCount >= maxAttempts then event.status == O.FAILED
                     else
                       && event.status == O.PENDING && event.attemptCount <= |delays|
                       && event.availableAt == world.clock(turn + i + 1) + delays[event.attemptCount - 1])
  {
    assert Dispatched(world, turn + i, claimed[i], log[i]);
    assert Outcome(OutboxTurn(world, mine, turn + i, trail[i]), claimed[i], log[i], trail[i + 1], maxAttempts, delays);
    hide OutboxTurn, Bystander;
  }

  function TokensOf(claimed: seq<O.ClaimedEvent>): set<Token> {
    set c | c in claimed :: c.claimToken
  }

  /** The event was stored as the outcome and the retry policy have it, and the claim given up. */
  predicate AsDecided(c: O.ClaimedEvent, sent: bool, now: nat, event: O.Event, maxAttempts: nat, delays: seq<nat>) {
    && event.claimToken.None?
    && if sent then
         && event.status == O.PUBLISHED && event.publishedAt == Some(now) && event.lastError.None?
         && event.attemptCount == c.attemptCount
       else
         && event.attemptCount == c.attemptCount + 1
         && if event.attemptCount >= maxAttempts then event.status == O.FAILED
            else
              && event.status == O.PENDING
              && c.attemptCount < |delays| && event.availableAt == now + delays[c.attemptCount]
  }

  /** The recorded outcomes show in the table, and no event handled so far is held under its claim any more. */
  predicate Handled(events: map<O.EventId, O.Event>, claimed: seq<O.ClaimedEvent>, log: seq<Publishing>,
                    maxAttempts: nat, delays: seq<nat>) {
    && |log| <= |claimed|
    && forall i :: 0 <= i < |log| ==> HandledOne(events, claimed[i], log[i], maxAttempts, delays)
  }

  /** Others may claim a rescheduled event again, but no recorded failure is forgotten and nothing settled changes. */
  predicate HandledOne(events: map<O.EventId, O.Event>, c: O.ClaimedEvent, p: Publishing, maxAttempts: nat,
                       delays: seq<nat>) {
    && c.outboxId in events && !O.Held(events[c.outboxId], c.claimToken)
    && (p.stored.Some? ==>
          && AsDecided(c, p.sent, p.now, p.stored.value, maxAttempts, delays)
          && events[c.outboxId].attemptCount >= p.stored.value.attemptCount
          && (O.Settled(p.stored.value) ==> events[c.outboxId] == p.stored.value))
  }

  /** The claims still to be handled are remembered as they stand. */
  predicate Awaiting(events: map<O.EventId, O.Event>, claimed: seq<O.ClaimedEvent>, from: nat) {
    forall i :: from <= i < |claimed| ==>
      && claimed[i].outboxId in events
      && (O.Held(events[claimed[i].outboxId], claimed[i].claimToken) ==>
            events[claimed[i].outboxId].attemptCount == claimed[i].attemptCount)
  }

  predicate DistinctClaims(claimed: seq<O.ClaimedEvent>) {
    forall i, j :: 0 <= i < j < |claimed| ==> claimed[i].outboxId != claimed[j].outboxId
  }

  class PublishOutboxService {
    const session: Session
    const outbox: OutboxRepository
    const imports: ImportRepository
    const uuids: Uuids
    const maxAttempts: nat
    const delays: seq<nat>

    constructor (session: Session, uuids: Uuids, maxAttempts: nat, delays: seq<nat>)
      ensures this.session == session && this.uuids == uuids && Wired()
      ensures this.maxAttempts == maxAttempts && this.delays == delays
    {
      this.session, this.uuids, this.maxAttempts, this.delays := session, uuids, maxAttempts, delays;
      outbox := new OutboxRepository(session);
      imports := new ImportRepository(session);
    }

    ghost predicate Wired() {
      outbox.session == session && imports.session == session
    }

    method RecordPublishSuccess(claimed: O.ClaimedEvent, now: nat) returns (recorded: bool)
      requires Wired()
      modifies session`events
      ensures recorded == old(outbox.HeldBy(claimed))
      ensures session.events ==
              if recorded
              then old(session.events)[claimed.outboxId := O.MarkPublished(old(session.events)[claimed.outboxId], now)]
              else old(session.events)
    {
      recorded := outbox.MarkPublished(claimed, now);
    }

    /**
     * The retry policy. Without a delay for this attempt the call fails before its transaction; otherwise a
     * publisher that still holds the event reschedules it, or fails it together with a pending import.
     */
    method RecordPublishFailure(claimed: O.ClaimedEvent, error: string, now: nat)
      returns (crashed: bool, recorded: bool)
      requires Wired()
      modifies session`events, session`jobs
      ensures var plan := O.PlanFailure(claimed.attemptCount + 1, maxAttempts, delays);
              && crashed == plan.NoSuchDelay?
              && recorded == (!crashed && old(outbox.HeldBy(claimed)))
              && session.events == (if recorded
                   then old(session.events)[claimed.outboxId :=
                          O.MarkFailure(old(session.events)[claimed.outboxId], claimed.attemptCount + 1, plan, error,
                              now)]
                   else old(session.events))
              && session.jobs == (if recorded && plan.Exhausted? && claimed.importId in old(session.jobs)
                   then old(session.jobs)[claimed.importId := J.FailPending(old(session.jobs)[claimed.importId], now)]
                   else old(session.jobs))
    {
      var attemptCount := claimed.attemptCount + 1;
      var exhausted := attemptCount >= maxAttempts;
      if !exhausted && attemptCount - 1 >= |delays| {
        return true, false;
      }
      var availableAt := if exhausted then None else Some(now + delays[attemptCount - 1]);
      recorded := outbox.MarkPublishFailure(claimed, attemptCount, error, if exhausted then O.FAILED else O.PENDING,
        availableAt, if exhausted then Some(now) else None);
      if recorded && exhausted {
        var _ := imports.FailPendingImportAfterDispatchExhausted(claimed.importId, now);
      }
      crashed := false;
    }

    /** What was just recorded for a claim. */
    function Recorded(sent: bool, now: nat, error: string, recorded: bool, claimed: O.ClaimedEvent): Publishing
      reads session
    {
      var stored :=
        if recorded && claimed.outboxId in session.events then Some(session.events[claimed.outboxId]) else None;
      Publishing(sent, now, error, stored)
    }

    /** Everything after a turn of the others, as the holder of these claims relies on it. */
    function OthersTurn(claimed: seq<O.ClaimedEvent>, turn: nat, s: Store): Store {
      OutboxTurn(session.world, TokensOf(claimed), turn, s)
    }

    /** One claimed event: send its message, then record the outcome; others may act in between. */
    method PublishOne(claimed: seq<O.ClaimedEvent>, i: nat, ghost log: seq<Publishing>)
      returns (crashed: bool, ghost outcome: Publishing)
      requires Wired() && session.Valid() && i < |claimed| && |log| == i && DistinctClaims(claimed)
      requires Handled(session.events, claimed, log, maxAttempts, delays) && Awaiting(session.events, claimed, i)
      modifies session
      ensures session.Valid() && session.turn == old(session.turn) + 1
      ensures crashed ==>
                && O.PlanFailure(claimed[i].attemptCount + 1, maxAttempts, delays).NoSuchDelay?
                && session.world.dispatch(old(session.turn), claimed[i].importId).Some?
                && session.Stored() == OthersTurn(claimed, old(session.turn), old(session.Stored()))
      ensures !crashed ==>
                && Dispatched(session.world, old(session.turn), claimed[i], outcome)
                && Outcome(OthersTurn(claimed, old(session.turn), old(session.Stored())), claimed[i], outcome,
                           session.Stored(), maxAttempts, delays)
      ensures !crashed ==>
                Handled(session.events, claimed, log + [outcome], maxAttempts, delays)
                    && Awaiting(session.events, claimed, i + 1)
    {
      var raised := session.world.dispatch(session.turn, claimed[i].importId);
      session.OtherPublishers(TokensOf(claimed));
      StillHandled(old(session.events), session.events, claimed, log, i, maxAttempts, delays);
      crashed, outcome := Record(claimed[i], raised, session.world.clock(session.turn));
      if !crashed {
        OneMoreHandled(OthersTurn(claimed, old(session.turn), old(session.Stored())).events, session.events, claimed,
          log, i, outcome, maxAttempts, delays);
      }
    }

    /** What the publisher makes of a dispatch that was accepted, or raised this error. */
    method Record(claimed: O.ClaimedEvent, raised: Option<string>, now: nat)
      returns (crashed: bool, ghost outcome: Publishing)
      requires Wired() && session.Valid() && claimed.outboxId in session.events
      requires O.Held(session.events[claimed.outboxId], claimed.claimToken) ==>
                 session.events[claimed.outboxId].attemptCount == claimed.attemptCount
      modifies session`events, session`jobs
      ensures crashed <==>
              raised.Some? && O.PlanFailure(claimed.attemptCount + 1, maxAttempts, delays).NoSuchDelay?
      ensures crashed ==> session.Stored() == old(session.Stored())
      ensures !crashed ==>
                && outcome.sent == raised.None? && outcome.error == raised.GetOr("") && outcome.now == now
                && Outcome(old(session.Stored()), claimed, outcome, session.Stored(), maxAttempts, delays)
                && HandledOne(session.events, claimed, outcome, maxAttempts, delays)
    {
      var recorded;
      if raised.None? {
        recorded := RecordPublishSuccess(claimed, now);
        crashed := false;
      } else {
        crashed, recorded := RecordPublishFailure(claimed, raised.value, now);
      }
      outcome := Recorded(raised.None?, now, raised.GetOr(""), recorded, claimed);
    }

    /** The claims of a batch one after the other, until all are handled or a delay is missing. */
    method PublishBatch(batch: seq<O.ClaimedEvent>)
      returns (crashed: bool, ghost log: seq<Publishing>, ghost trail: seq<Store>)
      requires Wired() && session.Valid() && DistinctClaims(batch)
      requires Handled(session.events, batch, [], maxAttempts, delays) && Awaiting(session.events, batch, 0)
      modifies session
      ensures session.Valid() && |trail| == |log| + 1 && trail[0] == old(session.Stored())
      ensures Trail(session.world, TokensOf(batch), old(session.turn), batch, log, trail, maxAttempts, delays)
      ensures crashed ==>
                && |log| < |batch| && O.PlanFailure(batch[|log|].attemptCount + 1, maxAttempts, delays).NoSuchDelay?
                && session.world.dispatch(old(session.turn) + |log|, batch[|log|].importId).Some?
                && session.Stored() == OthersTurn(batch, old(session.turn) + |log|, trail[|log|])
      ensures !crashed ==>
                && |log| == |batch| && session.Stored() == trail[|log|]
                && Handled(session.events, batch, log, maxAttempts, delays)
    {
      hide Handled, Awaiting, Outcome, Dispatched, OutboxTurn, Trail, TokensOf, DistinctClaims;
      log, trail := [], [session.Stored()];
      TrailBegins(session.world, TokensOf(batch), session.turn, batch, session.Stored(), maxAttempts, delays);
      var i := 0;
      while i < |batch|
        invariant i == |log| <= |batch| && session.Valid()
        invariant session.turn == old(session.turn) + i && |trail| == i + 1 && trail[i] == session.Stored()
        invariant trail[0] == old(session.Stored())
        invariant Trail(session.world, TokensOf(batch), old(session.turn), batch, log, trail, maxAttempts, delays)
        invariant Handled(session.events, batch, log, maxAttempts, delays) && Awaiting(session.events, batch, i)
      {
        var missing, outcome := PublishOne(batch, i, log);
        if missing {
          return true, log, trail;
        }
        TrailOn(session.world, TokensOf(batch), old(session.turn), batch, log, trail, maxAttempts, delays, outcome,
          session.Stored());
        log, trail := log + [outcome], trail + [session.Stored()];
        i := i + 1;
      }
      return false, log, trail;
    }

    /**
     * Claim a batch, dispatch it, record the outcomes. Unless a missing delay ends the call, which needs a
     * maximum above the number of delays plus one, no claim is left behind: every claimed event has been
     * published, rescheduled or failed, or was taken over by somebody else. The trail follows the outbox through
     * the call: from the claim, by turns of the others and outcomes alone.
     */
    method PublishDueEvents(batchSize: nat, now: nat, locked: set<O.EventId>)
      returns (count: Option<nat>, ghost claimed: seq<O.ClaimedEvent>, ghost log: seq<Publishing>,
               ghost trail: seq<Store>)
      requires Wired() && session.Valid()
      modifies session, uuids
      ensures session.Valid()
      ensures var ids := Batch(DueTimes(old(session.events), now), locked, batchSize);
              && |claimed| == |ids| && (forall i :: 0 <= i < |ids| ==> claimed[i].outboxId == ids[i])
              && |trail| == |log| + 1
              && trail[0].tables == old(session.Stored()).tables
              && ClaimedEvents(old(session.events), trail[0].events, ids, claimed, old(uuids.next), now)
      ensures Trail(session.world, TokensOf(claimed), old(session.turn), claimed, log, trail, maxAttempts, delays)
      ensures count.None? ==>
                && maxAttempts > |delays| + 1 && |log| < |claimed|
                && O.PlanFailure(claimed[|log|].attemptCount + 1, maxAttempts, delays).NoSuchDelay?
                && session.world.dispatch(old(session.turn) + |log|, claimed[|log|].importId).Some?
                && session.Stored() == OthersTurn(claimed, old(session.turn) + |log|, trail[|log|])
      ensures count.Some? ==>
                && count.value == |claimed| == |log| && session.Stored() == trail[|log|]
                && Handled(session.events, claimed, log, maxAttempts, delays)
    {
      hide Batch, DueTimes, ClaimedEvents, Handled, Awaiting, OutboxTurn, Trail, TokensOf, DistinctClaims, Distinct;
      var batch := outbox.ClaimDueEvents(batchSize, now, locked, uuids);
      FreshlyClaimed(old(session.events), session.events, Batch(DueTimes(old(session.events), now), locked, batchSize),
        batch, old(uuids.next), now, maxAttempts, delays);
      claimed := batch;
      var crashed;
      crashed, log, trail := PublishBatch(batch);
      return if crashed then None else Some(|batch|), claimed, log, trail;
    }

    /** One stale claim, found as it was locked. */
    method RecoverOne(stale: StaleOutboxClaim, now: nat) returns (failed: bool)
      requires Wired() && StillStale(session.events, stale)
      modifies session`events, session`jobs
      ensures failed == (stale.attemptCount >= maxAttempts)
      ensures session.events == old(session.events)[stale.outboxId :=
                if failed then O.FailStale(old(session.events)[stale.outboxId])
                else O.RequeueStale(old(session.events)[stale.outboxId], now)]
      ensures session.jobs ==
              if failed && stale.importId in old(session.jobs)
              then old(session.jobs)[stale.importId := J.FailPending(old(session.jobs)[stale.importId], now)]
              else old(session.jobs)
    {
      if stale.attemptCount >= maxAttempts {
        failed := outbox.MarkStaleClaimFailed(stale);
        if failed {
          var _ := imports.FailPendingImportAfterDispatchExhausted(stale.importId, now);
        }
        return;
      }
      var _ := outbox.RequeueStaleClaim(stale, now);
      return false;
    }

    /** The next claim of the batch. */
    method RecoverNext(claims: seq<StaleOutboxClaim>, i: nat, now: nat, ghost ids: seq<O.EventId>,
                       ghost events: map<O.EventId, O.Event>, ghost jobs: map<ImportId, J.Job>,
                           exhausted: seq<ImportId>)
      returns (exhausted': seq<ImportId>)
      requires Wired() && i < |claims| && LockedClaims(events, ids, claims) && |claims| == |ids| && ids[i] !in ids[..i]
      requires RecoveredEvents(events, session.events, ids, i, maxAttempts, now)
      requires exhausted == ExhaustedImports(events, ids[..i], maxAttempts)
      requires FailedImports(jobs, session.jobs, exhausted, now)
      modifies session`events, session`jobs
      ensures RecoveredEvents(events, session.events, ids, i + 1, maxAttempts, now)
      ensures exhausted' == ExhaustedImports(events, ids[..i + 1], maxAttempts)
      ensures FailedImports(jobs, session.jobs, exhausted', now)
    {
      LockedClaim(events, ids, claims, i);
      ExhaustedStep(events, ids, i, maxAttempts);
      hide RecoveredEvents, FailedImports, LockedClaims, ExhaustedImports, O.RequeueStale, O.FailStale, J.FailPending;
      ghost var events', jobs' := session.events, session.jobs;
      NotYetRecovered(events, events', ids, i, maxAttempts, now);
      var failed := RecoverOne(claims[i], now);
      OneMoreRecovered(events, events', session.events, ids, i, maxAttempts, now);
      exhausted' := exhausted;
      if failed {
        exhausted' := exhausted + [claims[i].importId];
        OneMoreFailed(jobs, jobs', session.jobs, exhausted', now);
      }
    }

    /** Recovery of abandoned claims, in one transaction: exhausted events fail with their pending imports. */
    method RecoverStaleClaims(batchSize: nat, before: nat, now: nat, locked: set<O.EventId>)
      returns (exhausted: seq<ImportId>)
      requires Wired()
      modifies session`events, session`jobs
      ensures var ids := Batch(StaleTimes(old(session.events), before), locked, batchSize);
              && RecoveredEvents(old(session.events), session.events, ids, |ids|, maxAttempts, now)
              && exhausted == ExhaustedImports(old(session.events), ids, maxAttempts)
              && FailedImports(old(session.jobs), session.jobs, exhausted, now)
    {
      var claims := outbox.LockStaleClaims(batchSize, before, locked);
      ghost var ids := Batch(StaleTimes(session.events, before), locked, batchSize);
      hide Batch, StaleTimes, Distinct;
      ghost var events, jobs := session.events, session.jobs;
      DistinctPrefix(ids);
      exhausted := [];
      var i := 0;
      while i < |claims|
        invariant i <= |claims| == |ids|
        invariant RecoveredEvents(events, session.events, ids, i, maxAttempts, now)
        invariant exhausted == ExhaustedImports(events, ids[..i], maxAttempts)
        invariant FailedImports(jobs, session.jobs, exhausted, now)
      {
        exhausted := RecoverNext(claims, i, now, ids, events, jobs, exhausted);
        i := i + 1;
      }
      assert ids[..i] == ids;
    }
  }

  lemma FreshlyClaimed(events: map<O.EventId, O.Event>, events': map<O.EventId, O.Event>, ids: seq<O.EventId>,
                       claimed: seq<O.ClaimedEvent>, first: Token, now: nat, maxAttempts: nat,
                       delays: seq<nat>)
    requires |claimed| == |ids| && Distinct(ids) && ClaimedEvents(events, events', ids, claimed, first, now)
    ensures DistinctClaims(claimed) && Awaiting(events', claimed, 0)
    ensures Handled(events', claimed, [], maxAttempts, delays)
    ensures forall i :: 0 <= i < |ids| ==> claimed[i].outboxId == ids[i]
  {
  }

  /** The first `n` of the batch are recovered, each by its own attempt count; no other event changes. */
  predicate RecoveredEvents(events: map<O.EventId, O.Event>, events': map<O.EventId, O.Event>, ids: seq<O.EventId>,
          n: nat,
                            maxAttempts: nat, now: nat)
  {
    && n <= |ids| && events'.Keys == events.Keys
    && (forall i :: 0 <= i < n ==>
          && ids[i] in events
          && events'[ids[i]] == if events[ids[i]].attemptCount >= maxAttempts then O.FailStale(events[ids[i]])
                                else O.RequeueStale(events[ids[i]], now))
    && (forall e | e in events && e !in ids[..n] :: events'[e] == events[e])
  }

  /** The imports of the exhausted events, in batch order. */
  function ExhaustedImports(events: map<O.EventId, O.Event>, ids: seq<O.EventId>, maxAttempts: nat): seq<ImportId> {
    if ids == [] then []
    else
      var last := ids[|ids| - 1];
      ExhaustedImports(events, ids[..|ids| - 1], maxAttempts) +
      if last in events && events[last].attemptCount >= maxAttempts then [events[last].importId] else []
  }

  /** Exactly the named imports that were pending have failed. */
  predicate FailedImports(jobs: map<ImportId, J.Job>, jobs': map<ImportId, J.Job>, failed: seq<ImportId>, now: nat) {
    && jobs'.Keys == jobs.Keys
    && forall id | id in jobs :: jobs'[id] == if id in failed then J.FailPending(jobs[id], now) else jobs[id]
  }

  lemma ExhaustedStep(events: map<O.EventId, O.Event>, ids: seq<O.EventId>, i: nat, maxAttempts: nat)
    requires i < |ids| && ids[i] in events
    ensures ExhaustedImports(events, ids[..i + 1], maxAttempts) ==
            ExhaustedImports(events, ids[..i], maxAttempts) +
            if events[ids[i]].attemptCount >= maxAttempts then [events[ids[i]].importId] else []
  {
    assert ids[..i + 1][..i] == ids[..i];
  }

  lemma LockedClaim(events: map<O.EventId, O.Event>, ids: seq<O.EventId>, claims: seq<StaleOutboxClaim>, i: nat)
    requires LockedClaims(events, ids, claims) && i < |ids|
    ensures ids[i] in events && StillStale(events, claims[i]) && claims[i].outboxId == ids[i]
    ensures claims[i].attemptCount == events[ids[i]].attemptCount && claims[i].importId == events[ids[i]].importId
  {
  }

  lemma NotYetRecovered(events: map<O.EventId, O.Event>, events': map<O.EventId, O.Event>, ids: seq<O.EventId>, i: nat,
                        maxAttempts: nat, now: nat)
    requires i < |ids| && ids[i] !in ids[..i] && ids[i] in events
    requires RecoveredEvents(events, events', ids, i, maxAttempts, now)
    ensures ids[i] in events' && events'[ids[i]] == events[ids[i]]
  {
  }

  lemma OneMoreRecovered(events: map<O.EventId, O.Event>, before: map<O.EventId, O.Event>, after: map<O.EventId,
          O.Event>,
                         ids: seq<O.EventId>, i: nat, maxAttempts: nat, now: nat)
    requires i < |ids| && ids[i] !in ids[..i] && ids[i] in events
    requires RecoveredEvents(events, before, ids, i, maxAttempts, now)
    requires after == before[ids[i] := if events[ids[i]].attemptCount >= maxAttempts then O.FailStale(events[ids[i]])
                                       else O.RequeueStale(events[ids[i]], now)]
    ensures RecoveredEvents(events, after, ids, i + 1, maxAttempts, now)
  {
    assert ids[..i + 1] == ids[..i] + [ids[i]];
    assert forall j :: 0 <= j < i ==> ids[j] == ids[..i][j];
  }

  lemma OneMoreFailed(jobs: map<ImportId, J.Job>, before: map<ImportId, J.Job>, after: map<ImportId, J.Job>,
                      failed: seq<ImportId>, now: nat)
    requires failed != [] && FailedImports(jobs, before, failed[..|failed| - 1], now)
    requires var id := failed[|failed| - 1];
             after == if id in before then before[id := J.FailPending(before[id], now)] else before
    ensures FailedImports(jobs, after, failed, now)
  {
    var front, id := failed[..|failed| - 1], failed[|failed| - 1];
    assert failed == front + [id];
  }

  /** What other processes do undoes nothing that was recorded and gives no claim back. */
  lemma StillHandled(events: map<O.EventId, O.Event>, events': map<O.EventId, O.Event>,
                     claimed: seq<O.ClaimedEvent>, log: seq<Publishing>, i: nat, maxAttempts: nat,
                     delays: seq<nat>)
    requires Handled(events, claimed, log, maxAttempts, delays) && Awaiting(events, claimed, i)
    requires EventsRelied(TokensOf(claimed), events, events')
    ensures Handled(events', claimed, log, maxAttempts, delays) && Awaiting(events', claimed, i)
  {
    forall j | 0 <= j < |log| ensures HandledOne(events', claimed[j], log[j], maxAttempts, delays) {
      assert HandledOne(events, claimed[j], log[j], maxAttempts, delays);
      assert claimed[j] in claimed && claimed[j].claimToken in TokensOf(claimed);
    }
    forall j | i <= j < |claimed|
      ensures claimed[j].outboxId in events'
      ensures O.Held(events'[claimed[j].outboxId], claimed[j].claimToken) ==>
                events'[claimed[j].outboxId].attemptCount == claimed[j].attemptCount
    {
      assert claimed[j] in claimed && claimed[j].claimToken in TokensOf(claimed);
    }
  }

  /** Recording the outcome of claim `i` touches its event alone, and ends the claim. */
  lemma OneMoreHandled(events: map<O.EventId, O.Event>, events': map<O.EventId, O.Event>,
                       claimed: seq<O.ClaimedEvent>, log: seq<Publishing>, i: nat, p: Publishing, maxAttempts: nat,
                       delays: seq<nat>)
    requires i < |claimed| && |log| == i && DistinctClaims(claimed)
    requires Handled(events, claimed, log, maxAttempts, delays) && Awaiting(events, claimed, i)
    requires forall e | e in events && e != claimed[i].outboxId :: e in events' && events'[e] == events[e]
    requires HandledOne(events', claimed[i], p, maxAttempts, delays)
    ensures Handled(events', claimed, log + [p], maxAttempts, delays) && Awaiting(events', claimed, i + 1)
  {
    forall j | 0 <= j < i ensures HandledOne(events', claimed[j], log[j], maxAttempts, delays) {
      assert HandledOne(events, claimed[j], log[j], maxAttempts, delays);
    }
    var log' := log + [p];
    assert forall j :: 0 <= j < i ==> log'[j] == log[j];
  }
}
