/** The repositories: statements against the tables, inside the caller's transaction. */
module Repositories {
  import opened Domain
  import opened Jsonb
  import opened Verdicts
  import opened Database
  import J = ImportJobs

  /** How a flush ends. A constraint other than the unique code may refuse a row at any time. */
  datatype Flush = Flushed | IntegrityError

  datatype ClaimedImport = ClaimedImport(importId: ImportId, processingToken: Token, attemptCount: nat,
      maxAttempts: nat)

  class ImportClaimRepository {
    const session: Session

    constructor (session: Session)
      ensures this.session == session
    {
      this.session := session;
    }

    /** Claim a pending import unless another transaction holds its row, in which case it looks absent. */
    method ClaimPendingImport(id: ImportId, token: Token, worker: string, now: nat, rowLocked: bool)
      returns (claimed: Option<ClaimedImport>)
      modifies session`jobs
      ensures claimed.Some? <==> !rowLocked && id in old(session.jobs) && J.Claimable(old(session.jobs)[id])
      ensures claimed.None? ==> session.jobs == old(session.jobs)
      ensures claimed.Some? ==>
                && session.jobs == old(session.jobs)[id := J.Claim(old(session.jobs)[id], token, worker, now)]
                && claimed.value == ClaimedImport(id, token, session.jobs[id].attemptCount,
                    session.jobs[id].maxAttempts)
                && J.Owned(session.jobs[id], token)
    {
      if rowLocked || id !in session.jobs {
        return None;
      }
      var job := session.jobs[id];
      if job.status != J.PENDING || job.attemptCount >= job.maxAttempts {
        return None;
      }
      session.jobs := session.jobs[id := job.(
        status := J.PROCESSING, processingToken := Some(token), lockedByWorker := Some(worker),
        attemptCount := job.attemptCount + 1, startedAt := Some(now), lastHeartbeatAt := Some(now))];
      var row := session.jobs[id];
      return Some(ClaimedImport(id, token, row.attemptCount, row.maxAttempts));
    }
  }

  class ImportRepository {
    const session: Session

    constructor (session: Session)
      ensures this.session == session
    {
      this.session := session;
    }

    /** Dispatch exhaustion fails an import that is still pending, and no other. */
    method FailPendingImportAfterDispatchExhausted(id: ImportId, now: nat) returns (failed: bool)
      modifies session`jobs
      ensures failed <==> id in old(session.jobs) && old(session.jobs)[id].status == J.PENDING
      ensures session.jobs ==
              if id in old(session.jobs) then old(session.jobs)[id := J.FailPending(old(session.jobs)[id], now)]
              else old(session.jobs)
    {
      failed := id in session.jobs && session.jobs[id].status == J.PENDING;
      if failed {
        var job := session.jobs[id];
        session.jobs := session.jobs[id := job.(
          status := J.FAILED, failureReason := Some(J.DISPATCH_EXHAUSTED),
              lastFailureReason := Some(J.DISPATCH_EXHAUSTED),
          finishedAt := Some(now), processingToken := None, lockedByWorker := None)];
      } else if id in session.jobs {
        assert session.jobs == session.jobs[id := session.jobs[id]];
      }
    }
  }

  class ImportProgressRepository {
    const session: Session

    constructor (session: Session)
      ensures this.session == session
    {
      this.session := session;
    }

    method HasCurrentOwnership(id: ImportId, token: Token) returns (owned: bool)
      ensures owned == session.OwnedBy(id, token)
    {
      owned := id in session.jobs && session.jobs[id].status == J.PROCESSING
               && session.jobs[id].processingToken == Some(token);
    }

    /** Every progress update is guarded: it changes the row of an owner, or nothing. */
    method UpdateCurrent(id: ImportId, token: Token, values: J.Job -> J.Job) returns (updated: bool)
      modifies session`jobs
      ensures updated == old(session.OwnedBy(id, token))
      ensures session.jobs
          == if updated then old(session.jobs)[id := values(old(session.jobs)[id])] else old(session.jobs)
    {
      updated := id in session.jobs && session.jobs[id].status == J.PROCESSING
                 && session.jobs[id].processingToken == Some(token);
      if updated {
        session.jobs := session.jobs[id := values(session.jobs[id])];
      }
    }

    method ResetForReprocessing(id: ImportId, token: Token) returns (updated: bool)
      modifies session`jobs
      ensures updated == old(session.OwnedBy(id, token))
      ensures session.jobs
          == if updated then old(session.jobs)[id := J.Reset(old(session.jobs)[id])] else old(session.jobs)
    {
      updated := UpdateCurrent(id, token, (job: J.Job) => job.(
        totalRows := 0, processedRows := 0, successCount := 0, failedCount := 0, finishedAt := None));
    }

    method RecordChunkCounts(id: ImportId, token: Token, total: nat, success: nat, failed: nat) returns (updated: bool)
      modifies session`jobs
      ensures updated == old(session.OwnedBy(id, token))
      ensures session.jobs ==
              if updated then old(session.jobs)[id := J.RecordChunk(old(session.jobs)[id], total, success, failed)]
              else old(session.jobs)
    {
      updated := UpdateCurrent(id, token, (job: J.Job) => job.(
        totalRows := job.totalRows + total, processedRows := job.processedRows + total,
        successCount := job.successCount + success, failedCount := job.failedCount + failed));
    }

    method Heartbeat(id: ImportId, token: Token, now: nat) returns (updated: bool)
      modifies session`jobs
      ensures updated == old(session.OwnedBy(id, token))
      ensures session.jobs ==
              if updated then old(session.jobs)[id := J.Heartbeat(old(session.jobs)[id], now)] else old(session.jobs)
    {
      updated := UpdateCurrent(id, token, (job: J.Job) => job.(lastHeartbeatAt := Some(now)));
    }

    method Complete(id: ImportId, token: Token, total: nat, success: nat, failed: nat, now: nat) returns (updated: bool)
      modifies session`jobs
      ensures updated == old(session.OwnedBy(id, token))
      ensures session.jobs ==
              if updated then old(session.jobs)[id := J.Complete(old(session.jobs)[id], total, success, failed, now)]
              else old(session.jobs)
    {
      updated := UpdateCurrent(id, token, (job: J.Job) => job.(
        status := J.COMPLETED, totalRows := total, processedRows := total, successCount := success,
        failedCount := failed, finishedAt := Some(now), lastHeartbeatAt := Some(now), processingToken := None,
        lockedByWorker := None));
    }

    method Fail(id: ImportId, token: Token, reason: string, now: nat) returns (updated: bool)
      modifies session`jobs
      ensures updated == old(session.OwnedBy(id, token))
      ensures session.jobs ==
              if updated then old(session.jobs)[id := J.Fail(old(session.jobs)[id], reason, now)] else old(session.jobs)
    {
      updated := UpdateCurrent(id, token, (job: J.Job) => job.(
        status := J.FAILED, failureReason := Some(reason), lastFailureReason := Some(reason),
        finishedAt := Some(now), processingToken := None, lockedByWorker := None));
    }

    method RequeueForRetry(id: ImportId, token: Token, reason: string) returns (updated: bool)
      modifies session`jobs
      ensures updated == old(session.OwnedBy(id, token))
      ensures session.jobs ==
              if updated then old(session.jobs)[id := J.Requeue(old(session.jobs)[id], reason)] else old(session.jobs)
    {
      updated := UpdateCurrent(id, token, (job: J.Job) => job.(
        status := J.PENDING, failureReason := None, lastFailureReason := Some(reason), processingToken := None,
        lockedByWorker := None));
    }
  }

  /** An insertion of these rows fails: a code is taken or repeated, or another constraint objects to a row. */
  predicate Collides(world: World, turn: nat, batch: seq<Shipment>, stored: seq<Shipment>) {
    || !(CodeSet(batch) !! CodeSet(stored)) || !DistinctCodes(batch)
    || exists s | s in batch :: world.refused(turn, s)
  }

  lemma CollidesAt(world: World, turn: nat, batch: seq<Shipment>, i: nat, stored: seq<Shipment>)
    requires i < |batch|
    requires batch[i].draft.code in CodeSet(stored + batch[..i]) || world.refused(turn, batch[i])
    ensures Collides(world, turn, batch, stored)
  {
    assert batch[i] in batch;
    if s :| s in stored + batch[..i] && s.draft.code == batch[i].draft.code {
      if s in stored {
        assert batch[i].draft.code in CodeSet(batch) && batch[i].draft.code in CodeSet(stored);
      } else {
        var j :| 0 <= j < i && batch[j] == s;
      }
    }
  }

  class ShipmentRepository {
    const session: Session

    constructor (session: Session)
      ensures this.session == session
    {
      this.session := session;
    }

    /** All rows or none: the flush fails if a code is taken or repeated, or if another constraint objects. */
    method BulkInsert(batch: seq<Shipment>) returns (r: Flush)
      requires session.Valid()
      modifies session`shipments, session`ever
      ensures session.Valid()
      ensures session.ever == if r.Flushed? then old(session.ever) + AsSet(batch) else old(session.ever)
      ensures r.Flushed? ==>
                && session.shipments == old(session.shipments) + batch
                && CodeSet(batch) !! old(CodeSet(session.shipments)) && DistinctCodes(batch)
      ensures r.IntegrityError? ==> session.shipments == old(session.shipments)
      ensures r.IntegrityError? <==> Collides(session.world, session.turn, batch, old(session.shipments))
    {
      var before := session.shipments;
      ghost var ever := session.ever;
      var i := 0;
      assert before + batch[..0] == before;
      while i < |batch|
        invariant i <= |batch|
        invariant session.shipments == before + batch[..i]
        invariant session.Valid() && session.ever == ever + AsSet(batch[..i])
        invariant CodeSet(batch[..i]) !! CodeSet(before) && DistinctCodes(batch[..i])
        invariant forall j :: 0 <= j < i ==> !session.world.refused(session.turn, batch[j])
      {
        var taken := CodeTaken(batch[i].draft.code);
        if taken || session.world.refused(session.turn, batch[i]) {
          CollidesAt(session.world, session.turn, batch, i, before);
          session.shipments, session.ever := before, ever;
          return IntegrityError;
        }
        DistinctSnoc(session.shipments, batch[i]);
        DistinctSnoc(batch[..i], batch[i]);
        CodesOfParts(before, batch[..i]);
        assert batch[..i + 1] == batch[..i] + [batch[i]];
        assert before + batch[..i] + [batch[i]] == before + batch[..i + 1];
        session.shipments := session.shipments + [batch[i]];
        session.ever := session.ever + {batch[i]};
        i := i + 1;
      }
      assert batch[..i] == batch;
      return Flushed;
    }

    method CodeTaken(code: Code) returns (taken: bool)
      ensures taken == (code in CodeSet(session.shipments))
    {
      var i := 0;
      while i < |session.shipments|
        invariant i <= |session.shipments|
        invariant forall j :: 0 <= j < i ==> session.shipments[j].draft.code != code
      {
        if session.shipments[i].draft.code == code {
          assert session.shipments[i] in session.shipments;
          return true;
        }
        i := i + 1;
      }
      return false;
    }

    /** The stored codes among those asked for, whichever import holds them. */
    method FindExistingShipmentCodes(codes: set<Code>) returns (found: set<Code>)
      ensures found == codes * CodeSet(session.shipments)
    {
      found := {};
      var i := 0;
      while i < |session.shipments|
        invariant i <= |session.shipments|
        invariant found == codes * CodeSet(session.shipments[..i])
      {
        DistinctSnoc(session.shipments[..i], session.shipments[i]);
        assert session.shipments[..i + 1] == session.shipments[..i] + [session.shipments[i]];
        if session.shipments[i].draft.code in codes {
          found := found + {session.shipments[i].draft.code};
        }
        i := i + 1;
      }
      assert session.shipments[..i] == session.shipments;
    }

    method DeleteByImportId(id: ImportId) returns (count: nat)
      requires session.Valid()
      modifies session`shipments
      ensures session.Valid()
      ensures session.shipments == ShipmentsOutside(id, old(session.shipments))
      ensures count == |old(session.shipments)| - |session.shipments|
    {
      var kept: seq<Shipment> := [];
      var i := 0;
      count := 0;
      while i < |session.shipments|
        invariant i <= |session.shipments|
        invariant kept == ShipmentsOutside(id, session.shipments[..i])
        invariant count == i - |kept|
      {
        assert session.shipments[..i + 1][..i] == session.shipments[..i];
        if session.shipments[i].importId == id {
          count := count + 1;
        } else {
          kept := kept + [session.shipments[i]];
        }
        i := i + 1;
      }
      assert session.shipments[..i] == session.shipments;
      DeletionKeepsDistinct(id, session.shipments);
      session.shipments := kept;
    }
  }

  lemma CodesOfParts(a: seq<Shipment>, b: seq<Shipment>)
    ensures CodeSet(a + b) == CodeSet(a) + CodeSet(b)
  {
    assert forall s | s in a + b :: s in a || s in b;
    assert forall s | s in a :: s in a + b;
    assert forall s | s in b :: s in a + b;
  }

  /** An error row with its raw data normalised once more, as insertion does. */
  function Normalised(e: ErrorRow): ErrorRow {
    e.(rawData := Safe(e.rawData))
  }

  function AllNormalised(rows: seq<ErrorRow>): seq<ErrorRow> {
    seq(|rows|, i requires 0 <= i < |rows| => Normalised(rows[i]))
  }

  class ImportErrorRepository {
    const session: Session

    constructor (session: Session)
      ensures this.session == session
    {
      this.session := session;
    }

    method BulkInsert(importErrors: seq<ErrorRow>) returns (count: nat)
      modifies session`errors
      ensures session.errors == old(session.errors) + AllNormalised(importErrors)
      ensures count == |importErrors|
    {
      var rows: seq<ErrorRow> := [];
      var i := 0;
      while i < |importErrors|
        invariant i <= |importErrors|
        invariant rows == AllNormalised(importErrors[..i])
      {
        rows := rows + [importErrors[i].(rawData := Safe(importErrors[i].rawData))];
        i := i + 1;
      }
      assert importErrors[..i] == importErrors;
      session.errors := session.errors + rows;
      return |rows|;
    }

    method DeleteByImportId(id: ImportId) returns (count: nat)
      modifies session`errors
      ensures session.errors == ErrorsOutside(id, old(session.errors))
      ensures count == |old(session.errors)| - |session.errors|
    {
      var kept: seq<ErrorRow> := [];
      var i := 0;
      count := 0;
      while i < |session.errors|
        invariant i <= |session.errors|
        invariant kept == ErrorsOutside(id, session.errors[..i])
        invariant count == i - |kept|
      {
        assert session.errors[..i + 1][..i] == session.errors[..i];
        if session.errors[i].importId == id {
          count := count + 1;
        } else {
          kept := kept + [session.errors[i]];
        }
        i := i + 1;
      }
      assert session.errors[..i] == session.errors;
      session.errors := kept;
    }
  }

  /** Errors built by validation carry normalised data, so the pass at insertion leaves them as they are. */
  lemma {:induction false} JudgedErrorsAreNormalised(id: ImportId, rows: seq<PreparedRow>, seen: set<Code>,
          existing: set<Code>)
    ensures forall e | e in Judge(id, rows, seen, existing).errors :: Normalised(e) == e && e.importId == id
  {
    if rows != [] {
      var front, row := rows[..|rows| - 1], rows[|rows| - 1];
      JudgedErrorsAreNormalised(id, front, seen, existing);
      var issues := RowIssues(row, seen + CodesOf(front), existing);
      BuiltErrorsAreNormalised(id, row.row.number, RawData(row.row), issues);
      var before := Judge(id, front, seen, existing).errors;
      var last := JudgeRow(id, row, issues).errors;
      assert Judge(id, rows, seen, existing).errors == before + last;
      hide Judge, JudgeRow, RowIssues, CodesOf, Normalised;
      assert forall e | e in before + last :: e in before || e in last;
    }
  }

  lemma BuiltErrorsAreNormalised(id: ImportId, rowNumber: nat, raw: Value, issues: seq<Issue>)
    ensures forall e | e in ErrorRows(id, rowNumber, raw, issues) :: Normalised(e) == e && e.importId == id
  {
    SafeIdempotent(raw);
  }
}
