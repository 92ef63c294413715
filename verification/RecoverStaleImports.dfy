/** The watchdog: a bounded batch of abandoned imports is requeued or failed in one transaction. */
module RecoverStaleImports {
  import opened Domain
  import opened Database
  import opened Batches
  import opened OutboxRepositories
  import J = ImportJobs
  import O = Outbox

  /** The imports whose heartbeat is too old, by their heartbeat. */
  function StaleImports(jobs: map<ImportId, J.Job>, before: nat): Times {
    map id | id in jobs && J.Stale(jobs[id], before) :: jobs[id].lastHeartbeatAt.GetOr(0)
  }

  /** The row is in progress, and its last heartbeat was before that time. */
  ghost predicate Abandoned(jobs: map<ImportId, J.Job>, id: ImportId, before: nat) {
    && id in jobs && jobs[id].status == J.PROCESSING
    && exists beat :: jobs[id].lastHeartbeatAt == Some(beat) && beat < before
  }

  /** In the rows' own fields: who is in the batch, in which order, and what it means to be left out. */
  lemma StaleImportsTaken(jobs: map<ImportId, J.Job>, before: nat, locked: set<ImportId>, n: nat)
    ensures var ids := Batch(StaleImports(jobs, before), locked, n);
            && |ids| <= n
            && (forall i :: 0 <= i < |ids| ==> Abandoned(jobs, ids[i], before) && ids[i] !in locked)
            && (forall i, j :: 0 <= i < j < |ids| ==>
                  jobs[ids[i]].lastHeartbeatAt.value <= jobs[ids[j]].lastHeartbeatAt.value)
            && forall id | Abandoned(jobs, id, before) && id !in locked && id !in ids ::
                 |ids| == n && forall i :: 0 <= i < |ids| ==>
                   jobs[ids[i]].lastHeartbeatAt.value <= jobs[id].lastHeartbeatAt.value
  {
    BatchTakes(StaleImports(jobs, before), locked, n);
    var times, ids := StaleImports(jobs, before), Batch(StaleImports(jobs, before), locked, n);
    hide Batch, Distinct;
    forall i | 0 <= i < |ids|
      ensures Abandoned(jobs, ids[i], before) && times[ids[i]] == jobs[ids[i]].lastHeartbeatAt.value
    {
      assert ids[i] in times;
    }
    forall id | Abandoned(jobs, id, before) ensures id in times && times[id] == jobs[id].lastHeartbeatAt.value {
    }
  }

  /** The first `n` of the batch are recovered; no other import changes. */
  predicate Recovered(jobs: map<ImportId, J.Job>, jobs': map<ImportId, J.Job>, ids: seq<ImportId>, n: nat, now: nat) {
    && n <= |ids| && jobs'.Keys == jobs.Keys
    && (forall i :: 0 <= i < n ==> ids[i] in jobs && jobs'[ids[i]] == J.RecoverStale(jobs[ids[i]], now))
    && (forall id | id in jobs && id !in ids[..n] :: jobs'[id] == jobs[id])
  }

  /** The imports of the batch with an attempt left. */
  function Requeued(jobs: map<ImportId, J.Job>, ids: seq<ImportId>): set<ImportId> {
    set id | id in ids && id in jobs && jobs[id].attemptCount < jobs[id].maxAttempts
  }

  /** One new intent, available at once, for each of these imports; the stored events are as they were. */
  predicate Intents(events: map<O.EventId, O.Event>, events': map<O.EventId, O.Event>, made: map<ImportId, O.EventId>,
          now: nat) {
    && (forall e | e in events :: e in events' && events'[e] == events[e])
    && (forall id | id in made ::
            made[id] !in events && made[id] in events' && events'[made[id]] == O.NewEvent(id, now))
    && (forall id, other | id in made && other in made && id != other :: made[id] != made[other])
    && (forall e | e in events' :: e in events || exists id :: id in made && made[id] == e)
  }

  /** Each of these imports is pending, with a due event of its own. */
  predicate PendingWithIntents(jobs: map<ImportId, J.Job>, events: map<O.EventId, O.Event>,
                               made: map<ImportId, O.EventId>, now: nat)
  {
    forall id | id in made ::
      && id in jobs && jobs[id].status == J.PENDING
      && made[id] in events && O.Due(events[made[id]], now) && events[made[id]].importId == id
  }

  class RecoverStaleImportsService {
    const session: Session
    const outbox: OutboxRepository
    const uuids: Uuids

    constructor (session: Session, uuids: Uuids)
      ensures this.session == session && this.uuids == uuids && outbox.session == session
    {
      this.session, this.uuids := session, uuids;
      outbox := new OutboxRepository(session);
    }

    method MarkFailed(id: ImportId, now: nat)
      requires id in session.jobs
      modifies session`jobs
      ensures session.jobs == old(session.jobs)[id := J.FailStale(old(session.jobs)[id], now)]
    {
      var job := session.jobs[id];
      session.jobs := session.jobs[id := job.(
        status := J.FAILED, processingToken := None, lockedByWorker := None,
            lastFailureReason := Some(J.STALE_HEARTBEAT),
        failureReason := Some(J.MAX_ATTEMPTS), finishedAt := Some(now))];
    }

    method RequeueWithDispatchIntent(id: ImportId, now: nat) returns (ghost e: O.EventId)
      requires outbox.session == session && id in session.jobs
      requires forall f | f in session.events :: f < uuids.next
      modifies session`jobs, session`events, uuids
      ensures session.jobs == old(session.jobs)[id := J.RequeueStale(old(session.jobs)[id], now)]
      ensures e !in old(session.events) && session.events == old(session.events)[e := O.NewEvent(id, now)]
      ensures forall f | f in session.events :: f < uuids.next
    {
      var job := session.jobs[id];
      session.jobs := session.jobs[id := job.(
        status := J.PENDING, processingToken := None, lockedByWorker := None, failureReason := None,
        lastFailureReason := Some(J.STALE_HEARTBEAT), lastRequeuedAt := Some(now), finishedAt := None,
        lastHeartbeatAt := None)];
      var intent := outbox.CreatePendingDispatchIntent(id, now, uuids);
      e := intent;
    }

    /** One row of the batch, as it was locked. */
    method RecoverOne(ids: seq<ImportId>, i: nat, now: nat, ghost jobs: map<ImportId, J.Job>,
                      ghost events: map<O.EventId, O.Event>, ghost made: map<ImportId, O.EventId>)
      returns (ghost made': map<ImportId, O.EventId>)
      requires outbox.session == session
      requires i < |ids| && ids[i] in jobs && ids[i] !in ids[..i]
      requires Recovered(jobs, session.jobs, ids, i, now)
      requires made.Keys == Requeued(jobs, ids[..i]) && Intents(events, session.events, made, now)
      requires forall e | e in session.events :: e < uuids.next
      modifies session`jobs, session`events, uuids
      ensures Recovered(jobs, session.jobs, ids, i + 1, now)
      ensures made'.Keys == Requeued(jobs, ids[..i + 1]) && Intents(events, session.events, made', now)
      ensures forall e | e in session.events :: e < uuids.next
    {
      hide *;
      ghost var jobs', events' := session.jobs, session.events;
      NotYetRecovered(jobs, jobs', ids, i, now);
      RequeuedStep(jobs, ids, i);
      var job := session.jobs[ids[i]];
      made' := made;
      if job.attemptCount >= job.maxAttempts {
        MarkFailed(ids[i], now);
      } else {
        ghost var e := RequeueWithDispatchIntent(ids[i], now);
        OneMoreIntent(events, events', session.events, made, ids[i], e, now);
        made' := made[ids[i] := e];
      }
      RecoveredAs(job, now);
      OneMoreRecovered(jobs, jobs', session.jobs, ids, i, now);
    }

    /**
     * Exactly the imports requeued get an intent, so none is left pending without one. No import changes but one in
     * progress whose heartbeat is too old, and unless the batch is full every such import that nobody has locked does.
     */
    method RecoverStaleImports(batchSize: nat, before: nat, now: nat, locked: set<ImportId>)
      returns (count: nat, ghost made: map<ImportId, O.EventId>)
      requires outbox.session == session
      requires forall e | e in session.events :: e < uuids.next
      modifies session`jobs, session`events, uuids
      ensures var ids := Batch(StaleImports(old(session.jobs), before), locked, batchSize);
              && count == |ids|
              && Recovered(old(session.jobs), session.jobs, ids, count, now)
              && made.Keys == Requeued(old(session.jobs), ids)
      ensures Intents(old(session.events), session.events, made, now)
      ensures PendingWithIntents(session.jobs, session.events, made, now)
      ensures session.jobs.Keys == old(session.jobs).Keys && count <= batchSize
      ensures forall id | id in old(session.jobs) && session.jobs[id] != old(session.jobs)[id] ::
                && id !in locked && old(session.jobs)[id].status == J.PROCESSING
                && old(session.jobs)[id].lastHeartbeatAt.Some? && old(session.jobs)[id].lastHeartbeatAt.value < before
      ensures count < batchSize ==>
                forall id | id in old(session.jobs) && id !in locked && old(session.jobs)[id].status == J.PROCESSING
                            && old(session.jobs)[id].lastHeartbeatAt.Some?
                            && old(session.jobs)[id].lastHeartbeatAt.value < before ::
                  session.jobs[id].status == if id in made then J.PENDING else J.FAILED
      ensures forall id | id in old(session.jobs) && id !in made :: session.jobs[id].status == J.PENDING ==>
                session.jobs[id] == old(session.jobs)[id]
    {
      var ids := Batch(StaleImports(session.jobs, before), locked, batchSize);
      ghost var jobs, events := session.jobs, session.events;
      StaleImportBatch(jobs, before, locked, batchSize);
      NothingRecovered(jobs, events, ids, now);
      hide *;
      made := map[];
      var i := 0;
      while i < |ids|
        invariant i <= |ids|
        invariant Recovered(jobs, session.jobs, ids, i, now)
        invariant made.Keys == Requeued(jobs, ids[..i])
        invariant Intents(events, session.events, made, now)
        invariant forall e | e in session.events :: e < uuids.next
      {
        made := RecoverOne(ids, i, now, jobs, events, made);
        i := i + 1;
      }
      assert ids[..i] == ids;
      RequeuedArePending(jobs, session.jobs, events, session.events, ids, made, now);
      RecoveredRows(jobs, session.jobs, before, locked, batchSize, now, made);
      count := |ids|;
    }
  }

  lemma StaleImportBatch(jobs: map<ImportId, J.Job>, before: nat, locked: set<ImportId>, n: nat)
    ensures var ids := Batch(StaleImports(jobs, before), locked, n);
            forall i :: 0 <= i < |ids| ==> ids[i] in jobs && ids[i] !in ids[..i] && J.Stale(jobs[ids[i]], before)
  {
    BatchRows(StaleImports(jobs, before), locked, n);
    hide Batch;
  }

  /** What the recovery of the batch makes of the rows, in their own fields. */
  lemma RecoveredRows(jobs: map<ImportId, J.Job>, jobs': map<ImportId, J.Job>, before: nat, locked: set<ImportId>,
                      n: nat, now: nat, made: map<ImportId, O.EventId>)
    requires var ids := Batch(StaleImports(jobs, before), locked, n);
             Recovered(jobs, jobs', ids, |ids|, now) && made.Keys == Requeued(jobs, ids)
    ensures jobs'.Keys == jobs.Keys && |Batch(StaleImports(jobs, before), locked, n)| <= n
    ensures forall id | id in jobs && jobs'[id] != jobs[id] ::
              && id !in locked && jobs[id].status == J.PROCESSING
              && jobs[id].lastHeartbeatAt.Some? && jobs[id].lastHeartbeatAt.value < before
    ensures |Batch(StaleImports(jobs, before), locked, n)| < n ==>
              forall id | id in jobs && id !in locked && jobs[id].status == J.PROCESSING
                          && jobs[id].lastHeartbeatAt.Some? && jobs[id].lastHeartbeatAt.value < before ::
                jobs'[id].status == if id in made then J.PENDING else J.FAILED
    ensures forall id | id in jobs && id !in made :: jobs'[id].status == J.PENDING ==> jobs'[id] == jobs[id]
  {
    StaleImportsTaken(jobs, before, locked, n);
    var ids := Batch(StaleImports(jobs, before), locked, n);
    hide Batch, StaleImports;
    assert ids[..|ids|] == ids;
    forall id | id in ids
      ensures Abandoned(jobs, id, before) && id !in locked
      ensures jobs'[id].status == if id in made then J.PENDING else J.FAILED
    {
      var i :| 0 <= i < |ids| && ids[i] == id;
    }
    forall id | id in jobs && id !in locked && jobs[id].status == J.PROCESSING
                && jobs[id].lastHeartbeatAt.Some? && jobs[id].lastHeartbeatAt.value < before
      ensures Abandoned(jobs, id, before)
    {
    }
  }

  lemma NothingRecovered(jobs: map<ImportId, J.Job>, events: map<O.EventId, O.Event>, ids: seq<ImportId>, now: nat)
    ensures Recovered(jobs, jobs, ids, 0, now) && Requeued(jobs, ids[..0]) == {} && Intents(events, events, map[], now)
  {
  }

  lemma RecoveredAs(job: J.Job, now: nat)
    ensures J.RecoverStale(job, now) ==
            if job.attemptCount >= job.maxAttempts then J.FailStale(job, now) else J.RequeueStale(job, now)
  {
  }

  lemma RequeuedArePending(jobs: map<ImportId, J.Job>, jobs': map<ImportId, J.Job>,
                           events: map<O.EventId, O.Event>, events': map<O.EventId, O.Event>,
                           ids: seq<ImportId>, made: map<ImportId, O.EventId>, now: nat)
    requires Recovered(jobs, jobs', ids, |ids|, now) && Intents(events, events', made, now)
        && made.Keys == Requeued(jobs, ids)
    ensures PendingWithIntents(jobs', events', made, now)
  {
    forall id | id in made ensures id in jobs' && jobs'[id].status == J.PENDING {
      var i :| 0 <= i < |ids| && ids[i] == id;
    }
  }

  lemma NotYetRecovered(jobs: map<ImportId, J.Job>, jobs': map<ImportId, J.Job>, ids: seq<ImportId>, i: nat, now: nat)
    requires i < |ids| && ids[i] !in ids[..i] && ids[i] in jobs && Recovered(jobs, jobs', ids, i, now)
    ensures ids[i] in jobs' && jobs'[ids[i]] == jobs[ids[i]]
  {
  }

  lemma OneMoreRecovered(jobs: map<ImportId, J.Job>, before: map<ImportId, J.Job>, after: map<ImportId, J.Job>,
                         ids: seq<ImportId>, i: nat, now: nat)
    requires i < |ids| && ids[i] !in ids[..i] && ids[i] in jobs && Recovered(jobs, before, ids, i, now)
    requires after == before[ids[i] := J.RecoverStale(jobs[ids[i]], now)]
    ensures Recovered(jobs, after, ids, i + 1, now)
  {
    assert ids[..i + 1] == ids[..i] + [ids[i]];
    assert forall j :: 0 <= j < i ==> ids[j] == ids[..i][j];
  }

  lemma RequeuedStep(jobs: map<ImportId, J.Job>, ids: seq<ImportId>, i: nat)
    requires i < |ids| && ids[i] in jobs
    ensures ids[i] !in ids[..i] ==> ids[i] !in Requeued(jobs, ids[..i])
    ensures Requeued(jobs, ids[..i + 1]) ==
            Requeued(jobs, ids[..i]) + if jobs[ids[i]].attemptCount < jobs[ids[i]].maxAttempts then {ids[i]} else {}
  {
    assert ids[..i + 1] == ids[..i] + [ids[i]];
  }

  lemma OneMoreIntent(events: map<O.EventId, O.Event>, before: map<O.EventId, O.Event>, after: map<O.EventId, O.Event>,
                      made: map<ImportId, O.EventId>, id: ImportId, e: O.EventId, now: nat)
    requires Intents(events, before, made, now) && id !in made && e !in before
    requires after == before[e := O.NewEvent(id, now)]
    ensures Intents(events, after, made[id := e], now)
  {
    var made' := made[id := e];
    forall f | f in after ensures f in events || exists x :: x in made' && made'[x] == f {
      if f == e {
        assert made'[id] == f;
      } else if f !in events {
        var x :| x in made && made[x] == f;
        assert made'[x] == f;
      }
    }
  }
}
