/**
 * The services take steps of the lifecycle: what a transaction of a service does to the session's tables is, for
 * the import it works on, one step of `Lifecycle`, seen with the codes of the other imports in the tables.
 */
module Refinement {
  import opened Domain
  import opened Verdicts
  import opened Database
  import opened Repositories
  import opened RowValidation
  import opened Lifecycle
  import opened Accounting
  import J = ImportJobs

  /** The tables hold this import as the state says. */
  predicate Shows(c: Config, s: State, job: J.Job, shipments: seq<Shipment>, errors: seq<ErrorRow>) {
    && s.job == job
    && s.stored.shipments == ShipmentsIn(c.id, shipments)
    && s.stored.errors == multiset(ErrorsIn(c.id, errors))
  }

  /** The codes that the other imports have in the table. */
  function Others(c: Config, shipments: seq<Shipment>): set<Code> {
    OthersCodes(c.id, AsSet(shipments))
  }

  lemma {:induction false} OwnRowsAreRows(id: ImportId, rows: seq<Shipment>)
    ensures forall s | s in ShipmentsIn(id, rows) :: s in rows && s.importId == id
  {
    if rows != [] {
      OwnRowsAreRows(id, rows[..|rows| - 1]);
    }
  }

  /** Every stored code is the import's own or another's. */
  lemma CodesSplit(c: Config, shipments: seq<Shipment>)
    ensures CodeSet(shipments) == Others(c, shipments) + CodeSet(ShipmentsIn(c.id, shipments))
  {
    OwnRowsAreRows(c.id, shipments);
    forall s | s in shipments && s.importId == c.id ensures s in ShipmentsIn(c.id, shipments) {
      OwnRowIsIn(c.id, shipments, s);
    }
    hide ShipmentsIn;
  }

  /** The import's rows in the tables after the insertion of a result. */
  lemma RowsInserted(id: ImportId, chunk: seq<PreparedRow>, seen: set<Code>, found: set<Code>, result: ChunkResult,
                     rows: seq<Shipment>, errors: seq<ErrorRow>)
    requires Stands(id, chunk, seen, found, result)
    ensures ShipmentsIn(id, rows + result.shipments) == ShipmentsIn(id, rows) + result.shipments
    ensures multiset(ErrorsIn(id, errors + AllNormalised(result.errors))) ==
            multiset(ErrorsIn(id, errors)) + multiset(result.errors)
  {
    ResultRowsAreOwn(id, chunk, seen, found, result);
    hide *;
    ShipmentsInConcat(id, rows, result.shipments);
    ShipmentsAllIn(id, result.shipments);
    ErrorsInConcat(id, errors, result.errors);
    ErrorsAllIn(id, result.errors);
    assert multiset(ErrorsIn(id, errors) + result.errors) == multiset(ErrorsIn(id, errors)) + multiset(result.errors);
  }

  /** A result's rows belong to the import, and inserting its errors does not change them. */
  lemma ResultRowsAreOwn(id: ImportId, rows: seq<PreparedRow>, seen: set<Code>, found: set<Code>, result: ChunkResult)
    requires Stands(id, rows, seen, found, result)
    ensures forall s | s in result.shipments :: s.importId == id
    ensures forall e | e in result.errors :: e.importId == id
    ensures AllNormalised(result.errors) == result.errors
  {
    JudgedErrorsAreNormalised(id, rows, seen, found);
    JudgedRowsAreOwn(id, rows, seen, found);
    var v := Judge(id, rows, seen, found);
    assert result.shipments == ShipmentsOf(v.valid);
    forall e | e in result.errors ensures e in v.errors {
      assert e in multiset(result.errors);
      assert e in multiset(v.errors);
    }
    hide Judge, Stands;
    assert forall i :: 0 <= i < |result.errors| ==> result.errors[i] in result.errors;
  }

  predicate AllOwn(id: ImportId, valid: seq<ValidRow>) {
    forall i :: 0 <= i < |valid| ==> valid[i].shipment.importId == id
  }

  lemma {:induction false} JudgedRowsAreOwn(id: ImportId, rows: seq<PreparedRow>, seen: set<Code>, existing: set<Code>)
    ensures AllOwn(id, Judge(id, rows, seen, existing).valid)
  {
    if rows != [] {
      var front, row := rows[..|rows| - 1], rows[|rows| - 1];
      hide *;
      assert rows == front + [row];
      JudgedRowsAreOwn(id, front, seen, existing);
      JudgeSnoc(id, front, row, seen, existing);
      NextIsOwn(id, front, row, seen, existing);
      OwnThen(id, Judge(id, front, seen, existing), NextVerdict(id, front, row, seen, existing));
    } else {
      assert Judge(id, rows, seen, existing) == NO_ROWS;
    }
  }

  lemma NextIsOwn(id: ImportId, rows: seq<PreparedRow>, row: PreparedRow, seen: set<Code>, existing: set<Code>)
    ensures AllOwn(id, NextVerdict(id, rows, row, seen, existing).valid)
  {
    hide CodesOf, RowIssues;
  }

  lemma OwnThen(id: ImportId, a: Verdicts, b: Verdicts)
    requires AllOwn(id, a.valid) && AllOwn(id, b.valid)
    ensures AllOwn(id, a.Then(b).valid)
  {
  }

  /** The step leaves the worker in this phase, with its message. */
  predicate MovesTo(s: State, s': State, w: WorkerId, phase: Phase) {
    w in s.workers && w in s'.workers && s'.workers[w] == s.workers[w].(phase := phase)
  }

  /** `ImportClaimRepository.ClaimPendingImport`, when it claims. */
  lemma ClaimIsAStep(c: Config, s: State, w: WorkerId, token: Token, name: string, now: nat,
                     job: J.Job, shipments: seq<Shipment>, errors: seq<ErrorRow>)
    requires Shows(c, s, job, shipments, errors) && w in s.workers && s.workers[w].phase.Delivered?
    requires J.Claimable(job) && token !in s.tokens
    ensures var a := Intake(w, ClaimImport(token, name, now));
            && Enabled(c, s, a) && Shows(c, Next(c, s, a), J.Claim(job, token, name, now), shipments, errors)
            && MovesTo(s, Next(c, s, a), w, Claimed(Claim(token, job.attemptCount + 1)))
  {
    hide ShipmentsIn, ErrorsIn;
  }

  /** `ProcessImportService.PrepareForReprocessing`, when it is done. */
  lemma ResetIsAStep(c: Config, s: State, w: WorkerId, job: J.Job, shipments: seq<Shipment>, errors: seq<ErrorRow>)
    requires Shows(c, s, job, shipments, errors) && w in s.workers && s.workers[w].phase.Claimed?
    requires J.Owned(job, s.workers[w].phase.claim.token)
    ensures var a := Chunk(w, ResetRows);
            && Enabled(c, s, a)
            && Shows(c, Next(c, s, a), J.Reset(job), ShipmentsOutside(c.id, shipments), ErrorsOutside(c.id, errors))
            && MovesTo(s, Next(c, s, a), w, Running(s.workers[w].phase.claim, 0, Sums(0, 0, 0)))
  {
    DeletedShipments(c.id, shipments, c.id);
    DeletedErrors(c.id, errors, c.id);
    hide ShipmentsIn, ErrorsIn, ShipmentsOutside, ErrorsOutside;
  }

  /** What the worker knows after it has looked up its next chunk in these shipments. */
  function LookedAt(c: Config, phase: Phase, shipments: seq<Shipment>): Phase
    requires phase.Running? && phase.done < |c.chunks|
  {
    var rows, seen := c.chunks[phase.done], SeenBefore(c, phase.done);
    var found := Found(rows, seen, CodeSet(shipments));
    LookedUp(phase.claim, phase.done, phase.sums, found, ResultOf(|rows|, Judge(c.id, rows, seen, found)))
  }

  /** `RowValidationService.ValidateChunk` on the worker's next chunk. */
  lemma LookUpIsAStep(c: Config, s: State, w: WorkerId, job: J.Job, shipments: seq<Shipment>, errors: seq<ErrorRow>)
    requires Shows(c, s, job, shipments, errors) && w in s.workers
    requires s.workers[w].phase.Running? && s.workers[w].phase.done < |c.chunks|
    ensures var a := Chunk(w, LookUpChunk(Others(c, shipments)));
            && Enabled(c, s, a) && Shows(c, Next(c, s, a), job, shipments, errors)
            && MovesTo(s, Next(c, s, a), w, LookedAt(c, s.workers[w].phase, shipments))
  {
    CodesSplit(c, shipments);
    hide ShipmentsIn, ErrorsIn, Judge, ShipmentsOf, SeenBefore, CodesOf, Others, CodeSet;
  }

  /** What the worker knows after a round of the race against these shipments. */
  function RacedAt(c: Config, phase: Phase, shipments: seq<Shipment>): Phase
    requires phase.Conflicted?
  {
    var r := Reclassified(c.id, phase.result, CodeSet(shipments));
    if r.successCount == phase.result.successCount then Failing(phase.claim, J.PROCESSING_FAILED)
    else LookedUp(phase.claim, phase.done, phase.sums,
                  phase.found + ValidCodes(phase.result.validRows) * CodeSet(shipments), r)
  }

  /** `RowValidationService.ReclassifyDatabaseDuplicates` in a round of the race. */
  lemma ReclassifyIsAStep(c: Config, s: State, w: WorkerId, job: J.Job, shipments: seq<Shipment>, errors: seq<ErrorRow>)
    requires Shows(c, s, job, shipments, errors) && w in s.workers && s.workers[w].phase.Conflicted?
    ensures var a := Chunk(w, Reclassify(Others(c, shipments)));
            && Enabled(c, s, a) && Shows(c, Next(c, s, a), job, shipments, errors)
            && MovesTo(s, Next(c, s, a), w, RacedAt(c, s.workers[w].phase, shipments))
  {
    CodesSplit(c, shipments);
    hide ShipmentsIn, ErrorsIn, Reclassified, ValidCodes, Others, CodeSet;
  }

  lemma ShowsMeans(c: Config, s: State, job: J.Job, shipments: seq<Shipment>, errors: seq<ErrorRow>)
    ensures Shows(c, s, job, shipments, errors) <==>
              && s.job == job
              && s.stored.shipments == ShipmentsIn(c.id, shipments)
              && s.stored.errors == multiset(ErrorsIn(c.id, errors))
  {
  }

  lemma PersistIsEnabled(c: Config, s: State, w: WorkerId, now: nat,
                         job: J.Job, shipments: seq<Shipment>, errors: seq<ErrorRow>)
    requires Shows(c, s, job, shipments, errors) && w in s.workers && s.workers[w].phase.LookedUp?
    requires CodeSet(s.workers[w].phase.result.shipments) !! CodeSet(shipments)
    ensures var x := PersistChunk(Others(c, shipments), now);
            && ChunkEnabled(c, s, w, x) && Enabled(c, s, Chunk(w, x))
            && Next(c, s, Chunk(w, x)) == ChunkNext(c, s, w, x)
  {
    CodesSplit(c, shipments);
    hide ShipmentsIn, ErrorsIn, Others, CodeSet, ChunkNext;
  }

  /** `ProcessImportService.PersistChunk`, when it is done. */
  lemma PersistIsAStep(c: Config, s: State, w: WorkerId, now: nat,
                       job: J.Job, shipments: seq<Shipment>, errors: seq<ErrorRow>)
    requires Shows(c, s, job, shipments, errors) && w in s.workers && s.workers[w].phase.LookedUp?
    requires J.Owned(job, s.workers[w].phase.claim.token)
    requires var phase := s.workers[w].phase;
             && phase.done < |c.chunks|
             && Stands(c.id, c.chunks[phase.done], SeenBefore(c, phase.done), phase.found, phase.result)
             && CodeSet(phase.result.shipments) !! CodeSet(shipments)
    ensures var phase := s.workers[w].phase;
            var r, a := phase.result, Chunk(w, PersistChunk(Others(c, shipments), now));
            && Enabled(c, s, a)
            && Shows(c, Next(c, s, a),
                 J.Heartbeat(J.RecordChunk(job, r.totalRows, r.successCount, r.failedCount), now),
                 shipments + r.shipments, errors + AllNormalised(r.errors))
            && MovesTo(s, Next(c, s, a), w, Running(phase.claim, phase.done + 1, Added(phase.sums, r)))
  {
    var phase := s.workers[w].phase;
    var r, x := phase.result, PersistChunk(Others(c, shipments), now);
    RowsInserted(c.id, c.chunks[phase.done], SeenBefore(c, phase.done), phase.found, r, shipments, errors);
    hide *;
    PersistIsEnabled(c, s, w, now, job, shipments, errors);
    PersistedParts(c, s, w, x);
    InsertedRows(s.stored, phase.found, r);
    PersistMoves(c, s, w, x);
    ShowsMeans(c, s, job, shipments, errors);
    ShowsMeans(c, Next(c, s, Chunk(w, x)),
      J.Heartbeat(J.RecordChunk(job, r.totalRows, r.successCount, r.failedCount), now),
      shipments + r.shipments, errors + AllNormalised(r.errors));
  }

  lemma PersistMoves(c: Config, s: State, w: WorkerId, x: ChunkAction)
    requires x.PersistChunk? && ChunkEnabled(c, s, w, x) && J.Owned(s.job, s.workers[w].phase.claim.token)
    ensures var phase := s.workers[w].phase;
            && phase.LookedUp?
            && MovesTo(s, ChunkNext(c, s, w, x), w,
                       Running(phase.claim, phase.done + 1, Added(phase.sums, phase.result)))
  {
    hide Inserted;
  }

  lemma InsertedRows(stored: Stored, found: set<Code>, r: ChunkResult)
    ensures Inserted(stored, found, r).shipments == stored.shipments + r.shipments
    ensures Inserted(stored, found, r).errors == stored.errors + multiset(r.errors)
  {
  }

  /** `ProcessImportService.Complete`, when it is done. */
  lemma CompleteIsAStep(c: Config, s: State, w: WorkerId, now: nat,
                        job: J.Job, shipments: seq<Shipment>, errors: seq<ErrorRow>)
    requires Shows(c, s, job, shipments, errors) && w in s.workers
    requires s.workers[w].phase.Running? && s.workers[w].phase.done >= |c.chunks|
    requires J.Owned(job, s.workers[w].phase.claim.token)
    ensures var sums, a := s.workers[w].phase.sums, Chunk(w, CompleteImport(now));
            && Enabled(c, s, a)
            && Shows(c, Next(c, s, a), J.Complete(job, sums.total, sums.success, sums.failed, now), shipments, errors)
            && w !in Next(c, s, a).workers
  {
    hide ShipmentsIn, ErrorsIn;
  }

  /** `ProcessImportService.HandleOperationalFailure`, when it requeues. */
  lemma RequeueIsAStep(c: Config, s: State, w: WorkerId, job: J.Job, shipments: seq<Shipment>, errors: seq<ErrorRow>)
    requires Shows(c, s, job, shipments, errors) && w in s.workers && s.workers[w].phase.Troubled?
    requires J.Owned(job, s.workers[w].phase.claim.token) && s.workers[w].phase.claim.attempt < c.maxAttempts
    ensures var a := Ending(w, HandleTrouble);
            && Enabled(c, s, a)
            && Shows(c, Next(c, s, a), J.Requeue(job, J.TEMPORARY_ERROR), shipments, errors)
            && MovesTo(s, Next(c, s, a), w, Requeued(s.workers[w].phase.claim))
  {
    hide ShipmentsIn, ErrorsIn;
  }

  /** `ProcessImportService.MarkFailed`, when the import fails. */
  lemma FailIsAStep(c: Config, s: State, w: WorkerId, now: nat,
                    job: J.Job, shipments: seq<Shipment>, errors: seq<ErrorRow>)
    requires Shows(c, s, job, shipments, errors) && w in s.workers && s.workers[w].phase.Failing?
    requires J.Owned(job, s.workers[w].phase.claim.token)
    ensures var a := Ending(w, MarkFailed(now));
            && Enabled(c, s, a)
            && Shows(c, Next(c, s, a), J.Fail(job, s.workers[w].phase.reason, now), shipments, errors)
            && w !in Next(c, s, a).workers
  {
    hide ShipmentsIn, ErrorsIn;
  }

  /** Any of these transactions without its guard leaves the import as it was. */
  lemma UnguardedIsAStep(c: Config, s: State, w: WorkerId, a: Action,
                         job: J.Job, shipments: seq<Shipment>, errors: seq<ErrorRow>)
    requires Shows(c, s, job, shipments, errors) && Enabled(c, s, a) && TakenBy(a, w) && !a.Intake?
    requires w in s.workers && (!s.workers[w].phase.Delivered? ==> !J.Owned(job, s.workers[w].phase.claim.token))
    ensures Shows(c, Next(c, s, a), job, shipments, errors)
  {
    hide ShipmentsIn, ErrorsIn;
    match a
    case Chunk(_, x) => ChunkGuarded(c, s, w, x);
    case Ending(_, x) => EndingGuarded(c, s, w, x);
  }
}
