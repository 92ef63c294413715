/** The outbox repository: claims, publish results and stale-claim recovery, each inside its caller's transaction. */
module OutboxRepositories {
  import opened Domain
  import opened Database
  import opened Batches
  import O = Outbox

  /** uuid4: every identifier and token is new. */
  class Uuids {
    var next: nat

    constructor ()
      ensures next == 0
    {
      next := 0;
    }

    method Uuid4() returns (id: nat)
      modifies this
      ensures id == old(next) && next == old(next) + 1
    {
      id, next := next, next + 1;
    }
  }

  /** A stale claim locked for recovery in the current transaction. */
  datatype StaleOutboxClaim = StaleOutboxClaim(
    outboxId: O.EventId, importId: ImportId, claimToken: Option<Token>, attemptCount: nat)

  /** The due events, by the time they became available. */
  function DueTimes(events: map<O.EventId, O.Event>, now: nat): Times {
    map e | e in events && O.Due(events[e], now) :: events[e].availableAt
  }

  /** The events claimed too long ago, by the time of their claim. */
  function StaleTimes(events: map<O.EventId, O.Event>, before: nat): Times {
    map e | e in events && O.StaleClaim(events[e], before) :: events[e].claimedAt.GetOr(0)
  }

  /** The guard of recovery compares the tokens as they were read, absent ones included. */
  predicate StillStale(events: map<O.EventId, O.Event>, stale: StaleOutboxClaim) {
    && stale.outboxId in events
    && events[stale.outboxId].status == O.PROCESSING && events[stale.outboxId].claimToken == stale.claimToken
  }

  /** A claimed batch consists of due events, once each. */
  lemma DueBatch(events: map<O.EventId, O.Event>, now: nat, locked: set<O.EventId>, n: nat)
    ensures var ids := Batch(DueTimes(events, now), locked, n);
            Distinct(ids) && forall i ::
                    0 <= i < |ids| ==> ids[i] in events && ids[i] !in locked && O.Due(events[ids[i]], now)
  {
    BatchRows(DueTimes(events, now), locked, n);
    hide Batch;
  }

  lemma StaleBatch(events: map<O.EventId, O.Event>, before: nat, locked: set<O.EventId>, n: nat)
    ensures var ids := Batch(StaleTimes(events, before), locked, n);
            Distinct(ids) && forall i ::
                    0 <= i < |ids| ==> ids[i] in events && ids[i] !in locked && O.StaleClaim(events[ids[i]], before)
  {
    BatchRows(StaleTimes(events, before), locked, n);
    hide Batch;
  }

  /** In the rows' own fields: the batch is the oldest pending events that are available, short of those locked. */
  lemma DueEventsTaken(events: map<O.EventId, O.Event>, now: nat, locked: set<O.EventId>, n: nat)
    ensures var ids := Batch(DueTimes(events, now), locked, n);
            && |ids| <= n
            && (forall i :: 0 <= i < |ids| ==>
                  && ids[i] in events && ids[i] !in locked
                  && events[ids[i]].status == O.PENDING && events[ids[i]].availableAt <= now)
            && (forall i, j :: 0 <= i < j < |ids| ==> events[ids[i]].availableAt <= events[ids[j]].availableAt)
            && forall e | e in events && e !in locked && e !in ids && events[e].status == O.PENDING
                          && events[e].availableAt <= now ::
                 |ids| == n && forall i :: 0 <= i < |ids| ==> events[ids[i]].availableAt <= events[e].availableAt
  {
    BatchTakes(DueTimes(events, now), locked, n);
    hide Batch, Distinct;
  }

  lemma StaleClaimsTaken(events: map<O.EventId, O.Event>, before: nat, locked: set<O.EventId>, n: nat)
    ensures var ids := Batch(StaleTimes(events, before), locked, n);
            && |ids| <= n
            && (forall i :: 0 <= i < |ids| ==>
                  && ids[i] in events && ids[i] !in locked && events[ids[i]].status == O.PROCESSING
                  && events[ids[i]].claimedAt.Some? && events[ids[i]].claimedAt.value < before)
            && (forall i, j :: 0 <= i < j < |ids| ==>
                  events[ids[i]].claimedAt.value <= events[ids[j]].claimedAt.value)
            && forall e | e in events && e !in locked && e !in ids && events[e].status == O.PROCESSING
                          && events[e].claimedAt.Some? && events[e].claimedAt.value < before ::
                 |ids| == n && forall i :: 0 <= i < |ids| ==>
                   events[ids[i]].claimedAt.value <= events[e].claimedAt.value
  {
    BatchTakes(StaleTimes(events, before), locked, n);
    hide Batch, Distinct;
  }

  /** The first events of the batch are claimed, each under its own token; no other event changes. */
  predicate ClaimedEvents(events: map<O.EventId, O.Event>, events': map<O.EventId, O.Event>, ids: seq<O.EventId>,
                          claimed: seq<O.ClaimedEvent>, first: Token, now: nat)
  {
    && |claimed| <= |ids| && events'.Keys == events.Keys
    && (forall i :: 0 <= i < |claimed| ==>
          && ids[i] in events
          && claimed[i] == O.ClaimedEvent(ids[i], events[ids[i]].importId, first + i, events[ids[i]].attemptCount)
          && events'[ids[i]] == O.Claim(events[ids[i]], first + i, now))
    && (forall e | e in events && e !in ids[..|claimed|] :: events'[e] == events[e])
  }

  lemma DistinctPrefix(ids: seq<O.EventId>)
    requires Distinct(ids)
    ensures forall i :: 0 <= i < |ids| ==> ids[i] !in ids[..i]
  {
  }

  lemma NothingClaimed(events: map<O.EventId, O.Event>, ids: seq<O.EventId>, first: Token, now: nat)
    ensures ClaimedEvents(events, events, ids, [], first, now)
  {
  }

  lemma NotYetClaimed(events: map<O.EventId, O.Event>, events': map<O.EventId, O.Event>, ids: seq<O.EventId>,
                      claimed: seq<O.ClaimedEvent>, first: Token, now: nat)
    requires ClaimedEvents(events, events', ids, claimed, first, now)
    requires |claimed| < |ids| && ids[|claimed|] in events && ids[|claimed|] !in ids[..|claimed|]
    ensures ids[|claimed|] in events' && events'[ids[|claimed|]] == events[ids[|claimed|]]
  {
  }

  lemma OneMoreClaimed(events: map<O.EventId, O.Event>, before: map<O.EventId, O.Event>, after: map<O.EventId, O.Event>,
                       ids: seq<O.EventId>, claimed: seq<O.ClaimedEvent>, first: Token, now: nat)
    requires ClaimedEvents(events, before, ids, claimed, first, now)
    requires |claimed| < |ids| && ids[|claimed|] in events && ids[|claimed|] !in ids[..|claimed|]
    requires var i := |claimed|; after == before[ids[i] := O.Claim(events[ids[i]], first + i, now)]
    ensures var i := |claimed|;
            ClaimedEvents(events, after, ids,
              claimed + [O.ClaimedEvent(ids[i], events[ids[i]].importId, first + i, events[ids[i]].attemptCount)],
                  first, now)
  {
    var i := |claimed|;
    var claimed' := claimed + [O.ClaimedEvent(ids[i], events[ids[i]].importId, first + i, events[ids[i]].attemptCount)];
    hide O.Claim;
    assert |claimed'| == i + 1 && after.Keys == events.Keys;
    forall j | 0 <= j < i ensures after[ids[j]] == before[ids[j]] && claimed'[j] == claimed[j] {
      assert ids[..i][j] == ids[j];
    }
    forall e | e in events && e !in ids[..i + 1] ensures after[e] == events[e] {
      assert ids[..i + 1] == ids[..i] + [ids[i]];
    }
  }

  /**
   * Claimed batches are disjoint. While the first claim is in flight its rows are locked, and after its commit
   * they are not pending: whatever happened since, no other publisher claims an event that still stands
   * claimed, whenever it looks.
   */
  lemma ClaimedBatchesAreDisjoint(
    events: map<O.EventId, O.Event>, events': map<O.EventId, O.Event>, ids: seq<O.EventId>,
    claimed: seq<O.ClaimedEvent>, first: Token, now: nat,
    later: map<O.EventId, O.Event>, now': nat, locked': set<O.EventId>, n': nat)
    requires ClaimedEvents(events, events', ids, claimed, first, now) && |claimed| == |ids|
    ensures forall i :: 0 <= i < |ids| ==> ids[i] !in Batch(DueTimes(events', now'), locked', n')
    ensures forall i :: 0 <= i < |ids| && ids[i] in later && O.Held(later[ids[i]], claimed[i].claimToken) ==>
              ids[i] !in Batch(DueTimes(later, now'), locked', n')
    ensures (forall i :: 0 <= i < |ids| ==> ids[i] in locked') ==>
              forall i :: 0 <= i < |ids| ==> ids[i] !in Batch(DueTimes(events, now'), locked', n')
  {
    DueBatch(events', now', locked', n');
    DueBatch(later, now', locked', n');
    DueBatch(events, now', locked', n');
    hide Batch, DueTimes;
  }

  /** The claims are the stale events of the batch as they stand in the table. */
  predicate LockedClaims(events: map<O.EventId, O.Event>, ids: seq<O.EventId>, claims: seq<StaleOutboxClaim>) {
    && |claims| == |ids|
    && forall i :: 0 <= i < |ids| ==>
         && ids[i] in events && events[ids[i]].status == O.PROCESSING
         && claims[i] == StaleOutboxClaim(ids[i], events[ids[i]].importId, events[ids[i]].claimToken,
             events[ids[i]].attemptCount)
  }

  class OutboxRepository {
    const session: Session

    constructor (session: Session)
      ensures this.session == session
    {
      this.session := session;
    }

    ghost predicate HeldBy(claimed: O.ClaimedEvent)
      reads session
    {
      claimed.outboxId in session.events && O.Held(session.events[claimed.outboxId], claimed.claimToken)
    }

    /** The next event of the batch, as it was locked. */
    method ClaimOne(ids: seq<O.EventId>, claimed: seq<O.ClaimedEvent>, now: nat, uuids: Uuids,
                    ghost events: map<O.EventId, O.Event>, ghost first: Token)
      returns (next: O.ClaimedEvent)
      requires |claimed| < |ids| && ids[|claimed|] in events && ids[|claimed|] !in ids[..|claimed|]
      requires uuids.next == first + |claimed| && ClaimedEvents(events, session.events, ids, claimed, first, now)
      modifies session`events, uuids
      ensures uuids.next == old(uuids.next) + 1
      ensures ClaimedEvents(events, session.events, ids, claimed + [next], first, now)
    {
      hide ClaimedEvents;
      ghost var events' := session.events;
      NotYetClaimed(events, events', ids, claimed, first, now);
      var token := uuids.Uuid4();
      var event := session.events[ids[|claimed|]];
      session.events := session.events[ids[|claimed|] :=
        event.(status := O.PROCESSING, claimToken := Some(token), claimedAt := Some(now))];
      OneMoreClaimed(events, events', session.events, ids, claimed, first, now);
      return O.ClaimedEvent(ids[|claimed|], event.importId, token, event.attemptCount);
    }

    /** Claim the oldest due events that nobody has locked, each under a token of its own. */
    method ClaimDueEvents(batchSize: nat, now: nat, locked: set<O.EventId>, uuids: Uuids)
      returns (claimed: seq<O.ClaimedEvent>)
      modifies session`events, uuids
      ensures uuids.next == old(uuids.next) + |claimed|
      ensures var ids := Batch(DueTimes(old(session.events), now), locked, batchSize);
              && |claimed| == |ids| && Distinct(ids)
              && ClaimedEvents(old(session.events), session.events, ids, claimed, old(uuids.next), now)
    {
      var ids := Batch(DueTimes(session.events, now), locked, batchSize);
      DueBatch(session.events, now, locked, batchSize);
      ghost var events, first := session.events, uuids.next;
      DistinctPrefix(ids);
      NothingClaimed(events, ids, first, now);
      hide Batch, DueTimes, Distinct, ClaimedEvents, O.Due;
      claimed := [];
      var i := 0;
      while i < |ids|
        invariant i == |claimed| <= |ids| && uuids.next == first + i
        invariant ClaimedEvents(events, session.events, ids, claimed, first, now)
      {
        var event := ClaimOne(ids, claimed, now, uuids, events, first);
        claimed := claimed + [event];
        i := i + 1;
      }
    }

    /** A publisher that still holds the event marks it published. */
    method MarkPublished(claimed: O.ClaimedEvent, now: nat) returns (marked: bool)
      modifies session`events
      ensures marked == old(HeldBy(claimed))
      ensures session.events ==
              if marked
              then old(session.events)[claimed.outboxId := O.MarkPublished(old(session.events)[claimed.outboxId], now)]
              else old(session.events)
    {
      marked := claimed.outboxId in session.events && session.events[claimed.outboxId].status == O.PROCESSING
        && session.events[claimed.outboxId].claimToken == Some(claimed.claimToken);
      if marked {
        var event := session.events[claimed.outboxId];
        session.events := session.events[claimed.outboxId :=
          event.(status := O.PUBLISHED, publishedAt := Some(now), claimToken := None, lastError := None)];
      }
    }

    /** The outcome chosen by the service; without an availability time the old one stays. */
    method MarkPublishFailure(claimed: O.ClaimedEvent, attemptCount: nat, error: string, status: O.EventStatus,
                              availableAt: Option<nat>, claimedAt: Option<nat>)
      returns (recorded: bool)
      modifies session`events
      ensures recorded == old(HeldBy(claimed))
      ensures session.events ==
              if recorded
              then
                var event := old(session.events)[claimed.outboxId];
                old(session.events)[claimed.outboxId := event.(
                  status := status, attemptCount := attemptCount, lastError := Some(error), claimedAt := claimedAt,
                  claimToken := None, availableAt := availableAt.GetOr(event.availableAt))]
              else old(session.events)
    {
      recorded := claimed.outboxId in session.events && session.events[claimed.outboxId].status == O.PROCESSING
        && session.events[claimed.outboxId].claimToken == Some(claimed.claimToken);
      if recorded {
        var event := session.events[claimed.outboxId].(
          status := status, attemptCount := attemptCount, lastError := Some(error), claimedAt := claimedAt,
              claimToken := None);
        if availableAt.Some? {
          event := event.(availableAt := availableAt.value);
        }
        session.events := session.events[claimed.outboxId := event];
      }
    }

    /** The oldest stale claims that nobody has locked. */
    method LockStaleClaims(batchSize: nat, before: nat, locked: set<O.EventId>) returns (claims: seq<StaleOutboxClaim>)
      ensures var ids := Batch(StaleTimes(session.events, before), locked, batchSize);
              Distinct(ids) && LockedClaims(session.events, ids, claims)
    {
      var ids := Batch(StaleTimes(session.events, before), locked, batchSize);
      StaleBatch(session.events, before, locked, batchSize);
      hide Batch, StaleTimes;
      claims := [];
      var i := 0;
      while i < |ids|
        invariant i == |claims| <= |ids|
        invariant forall j :: 0 <= j < i ==>
                    claims[j] == StaleOutboxClaim(ids[j], session.events[ids[j]].importId,
                                                  session.events[ids[j]].claimToken,
                                                      session.events[ids[j]].attemptCount)
      {
        var event := session.events[ids[i]];
        claims := claims + [StaleOutboxClaim(ids[i], event.importId, event.claimToken, event.attemptCount)];
        i := i + 1;
      }
    }

    method RequeueStaleClaim(stale: StaleOutboxClaim, now: nat) returns (requeued: bool)
      modifies session`events
      ensures requeued == StillStale(old(session.events), stale)
      ensures session.events ==
              if requeued
              then old(session.events)[stale.outboxId := O.RequeueStale(old(session.events)[stale.outboxId], now)]
              else old(session.events)
    {
      requeued := stale.outboxId in session.events && session.events[stale.outboxId].status == O.PROCESSING
        && session.events[stale.outboxId].claimToken == stale.claimToken;
      if requeued {
        var event := session.events[stale.outboxId];
        session.events := session.events[stale.outboxId := event.(
          status := O.PENDING, availableAt := now, claimedAt := None, claimToken := None,
              lastError := Some(O.STALE_CLAIM))];
      }
    }

    method MarkStaleClaimFailed(stale: StaleOutboxClaim) returns (failed: bool)
      modifies session`events
      ensures failed == StillStale(old(session.events), stale)
      ensures session.events ==
              if failed
              then old(session.events)[stale.outboxId := O.FailStale(old(session.events)[stale.outboxId])]
              else old(session.events)
    {
      failed := stale.outboxId in session.events && session.events[stale.outboxId].status == O.PROCESSING
        && session.events[stale.outboxId].claimToken == stale.claimToken;
      if failed {
        var event := session.events[stale.outboxId];
        session.events := session.events[stale.outboxId :=
          event.(status := O.FAILED, claimToken := None, lastError := Some(O.STALE_CLAIM))];
      }
    }

    /** A new pending intent; no stored event is touched. */
    method CreatePendingDispatchIntent(id: ImportId, availableAt: nat, uuids: Uuids) returns (e: O.EventId)
      requires forall f | f in session.events :: f < uuids.next
      modifies session`events, uuids
      ensures e !in old(session.events) && session.events == old(session.events)[e := O.NewEvent(id, availableAt)]
      ensures uuids.next == old(uuids.next) + 1 && e < uuids.next
    {
      e := uuids.Uuid4();
      session.events := session.events[e := O.Event(id, O.PENDING, 0, availableAt, None, None, None, None)];
    }
  }
}
