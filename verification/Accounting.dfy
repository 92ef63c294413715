/** The rows an import has stored are exactly those of the chunks its attempts have committed since the last reset. */
module Accounting {
  import opened Domain
  import opened Verdicts
  import opened Lifecycle
  import opened LifecycleInvariant
  import J = ImportJobs

  /** The verdicts on the first `|found|` chunks, chunk `k` judged with `found[k]` found in the database. */
  function Replay(c: Config, found: seq<set<Code>>): Verdicts
    requires |found| <= |c.chunks|
  {
    if found == [] then NO_ROWS
    else
      var k := |found| - 1;
      Replay(c, found[..k]).Then(Judge(c.id, c.chunks[k], SeenBefore(c, k), found[k]))
  }

  /** The tables hold the replayed rows, and the counters count them. */
  predicate Tallied(job: J.Job, stored: Stored, v: Verdicts) {
    && stored.shipments == ShipmentsOf(v.valid)
    && stored.errors == multiset(v.errors)
    && job.successCount == |v.valid|
    && job.failedCount == v.failed
    && job.totalRows == job.processedRows == |v.valid| + v.failed
  }

  predicate StoredInv(c: Config, s: State) {
    && |s.stored.found| <= |c.chunks|
    && Tallied(s.job, s.stored, Replay(c, s.stored.found))
    && (s.job.status == J.COMPLETED ==> |s.stored.found| == |c.chunks|)
  }

  /** An owner has committed `done` chunks since its reset, and its own sums are the counters of the row. */
  predicate InStep(s: State, claim: Claim, done: nat, sums: Sums) {
    J.Owned(s.job, claim.token) ==>
      && done == |s.stored.found|
      && sums == Sums(s.job.totalRows, s.job.successCount, s.job.failedCount)
  }

  /** A looked-up result stands for its chunk, and no code found is one of the import's own. */
  predicate ResultInv(c: Config, s: State, claim: Claim, done: nat, found: set<Code>, result: ChunkResult) {
    && done < |c.chunks|
    && Stands(c.id, c.chunks[done], SeenBefore(c, done), found, result)
    && (J.Owned(s.job, claim.token) ==> found !! CodeSet(s.stored.shipments))
  }

  predicate ProgressInv(c: Config, s: State, phase: Phase) {
    match phase
    case Running(claim, done, sums) => done <= |c.chunks| && InStep(s, claim, done, sums)
    case LookedUp(claim, done, sums, found, result) =>
      InStep(s, claim, done, sums) && ResultInv(c, s, claim, done, found, result)
    case Conflicted(claim, done, sums, found, result) =>
      InStep(s, claim, done, sums) && ResultInv(c, s, claim, done, found, result)
    case _ => true
  }

  predicate AccountInv(c: Config, s: State) {
    && StoredInv(c, s)
    && forall w | w in s.workers :: ProgressInv(c, s, s.workers[w].phase)
  }

  // --- The replayed rows ------------------------------------------------------------------------

  lemma {:induction false} ShipmentsConcat(a: seq<ValidRow>, b: seq<ValidRow>)
    ensures ShipmentsOf(a + b) == ShipmentsOf(a) + ShipmentsOf(b)
  {
    forall i | 0 <= i < |a + b| ensures ShipmentsOf(a + b)[i] == (ShipmentsOf(a) + ShipmentsOf(b))[i] {
    }
  }

  lemma CodeSetOfValid(valid: seq<ValidRow>)
    ensures CodeSet(ShipmentsOf(valid)) == ValidCodes(valid)
  {
    var shipments := ShipmentsOf(valid);
    forall s | s in shipments ensures s.draft.code in ValidCodes(valid) {
      var i :| 0 <= i < |shipments| && shipments[i] == s;
      assert valid[i] in valid;
    }
    forall v | v in valid ensures v.shipment.draft.code in CodeSet(shipments) {
      var i :| 0 <= i < |valid| && valid[i] == v;
      assert shipments[i] in shipments;
    }
  }

  lemma SeenNext(c: Config, k: nat)
    requires k < |c.chunks|
    ensures SeenBefore(c, k + 1) == SeenBefore(c, k) + CodesOf(c.chunks[k])
  {
    assert c.chunks[..k + 1][..k] == c.chunks[..k];
    CodesOfConcat(Flatten(c.chunks[..k]), c.chunks[k]);
  }

  /** The codes of stored rows are distinct and all of them have been seen. */
  lemma {:induction false} ReplayCodes(c: Config, found: seq<set<Code>>)
    requires |found| <= |c.chunks|
    ensures ValidCodes(Replay(c, found).valid) <= SeenBefore(c, |found|)
    ensures DistinctCodes(ShipmentsOf(Replay(c, found).valid))
  {
    if found != [] {
      var k := |found| - 1;
      ReplayCodes(c, found[..k]);
      JudgeCounts(c.id, c.chunks[k], SeenBefore(c, k), found[k]);
      SeenNext(c, k);
      var before, next := Replay(c, found[..k]), Judge(c.id, c.chunks[k], SeenBefore(c, k), found[k]);
      ValidCodesThen(before, next);
      DistinctThen(before, next);
    }
  }

  lemma DistinctThen(a: Verdicts, b: Verdicts)
    requires DistinctCodes(ShipmentsOf(a.valid)) && DistinctCodes(ShipmentsOf(b.valid))
    requires ValidCodes(a.valid) !! ValidCodes(b.valid)
    ensures DistinctCodes(ShipmentsOf(a.Then(b).valid))
  {
    ShipmentsConcat(a.valid, b.valid);
    CodeSetOfValid(a.valid);
    CodeSetOfValid(b.valid);
    assert a.Then(b).valid == a.valid + b.valid;
    hide *;
    DistinctConcat(ShipmentsOf(a.valid), ShipmentsOf(b.valid));
  }

  lemma DistinctConcat(a: seq<Shipment>, b: seq<Shipment>)
    requires DistinctCodes(a) && DistinctCodes(b) && CodeSet(a) !! CodeSet(b)
    ensures DistinctCodes(a + b)
  {
    assert forall i :: 0 <= i < |a| ==> a[i].draft.code in CodeSet(a);
    assert forall i :: 0 <= i < |b| ==> b[i].draft.code in CodeSet(b);
  }

  lemma ReplayNext(c: Config, found: seq<set<Code>>, more: set<Code>)
    requires |found| < |c.chunks|
    ensures Replay(c, found + [more]) ==
            Replay(c, found).Then(Judge(c.id, c.chunks[|found|], SeenBefore(c, |found|), more))
  {
    assert (found + [more])[..|found|] == found;
  }

  // --- Committing a chunk -----------------------------------------------------------------------

  /** Inserting a chunk's rows and adding its counts keeps tables and counters in agreement. */
  lemma TalliedNext(job: J.Job, stored: Stored, v: Verdicts, next: Verdicts, n: nat, r: ChunkResult, found: set<Code>,
          now: nat)
    requires Tallied(job, stored, v)
    requires SameResult(r, ResultOf(n, next)) && n == |next.valid| + next.failed
    ensures Tallied(J.Heartbeat(J.RecordChunk(job, r.totalRows, r.successCount, r.failedCount), now),
                    Inserted(stored, found, r), v.Then(next))
  {
    ShipmentsConcat(v.valid, next.valid);
    assert multiset(v.errors + next.errors) == multiset(v.errors) + multiset(next.errors);
  }

  lemma PersistKeepsStored(c: Config, s: State, w: WorkerId, a: ChunkAction)
    requires AccountInv(c, s) && a.PersistChunk? && ChunkEnabled(c, s, w, a)
    requires J.Owned(s.job, s.workers[w].phase.claim.token)
    ensures StoredInv(c, ChunkNext(c, s, w, a))
    ensures ProgressInv(c, ChunkNext(c, s, w, a), ChunkNext(c, s, w, a).workers[w].phase)
  {
    hide *;
    PersistedParts(c, s, w, a);
    LookedUpInv(c, s, w);
    var phase := s.workers[w].phase;
    AfterPersist(c, s, ChunkNext(c, s, w, a), phase.claim, phase.done, phase.sums, phase.found, phase.result, a.now);
  }

  lemma LookedUpInv(c: Config, s: State, w: WorkerId)
    requires AccountInv(c, s) && w in s.workers && s.workers[w].phase.LookedUp?
    ensures var phase := s.workers[w].phase;
            StoredInv(c, s) && InStep(s, phase.claim, phase.done, phase.sums)
            && ResultInv(c, s, phase.claim, phase.done, phase.found, phase.result)
  {
    assert ProgressInv(c, s, s.workers[w].phase);
  }

  lemma AfterPersist(c: Config, s: State, s': State, claim: Claim, done: nat, sums: Sums, found: set<Code>,
          r: ChunkResult, now: nat)
    requires StoredInv(c, s) && InStep(s, claim, done, sums) && ResultInv(c, s, claim, done, found, r)
    requires J.Owned(s.job, claim.token)
    requires s'.job == J.Heartbeat(J.RecordChunk(s.job, r.totalRows, r.successCount, r.failedCount), now)
    requires s'.stored == Inserted(s.stored, found, r)
    ensures StoredInv(c, s')
    ensures ProgressInv(c, s', Running(claim, done + 1,
              Sums(sums.total + r.totalRows, sums.success + r.successCount, sums.failed + r.failedCount)))
  {
    hide Stands, Replay, Inserted;
    InsertedTallied(c, s.job, s.stored, found, r, now);
    InsertedFound(s.stored, found, r);
  }

  /** What a guarded chunk commit makes of the row, the tables and the worker. */
  lemma PersistedParts(c: Config, s: State, w: WorkerId, a: ChunkAction)
    requires a.PersistChunk? && ChunkEnabled(c, s, w, a) && J.Owned(s.job, s.workers[w].phase.claim.token)
    ensures w in s.workers && s.workers[w].phase.LookedUp?
    ensures var s', phase := ChunkNext(c, s, w, a), s.workers[w].phase;
            var r := phase.result;
            && s'.job == J.Heartbeat(J.RecordChunk(s.job, r.totalRows, r.successCount, r.failedCount), a.now)
            && s'.stored == Inserted(s.stored, phase.found, r)
            && w in s'.workers && s'.workers[w].phase == Running(phase.claim, phase.done + 1,
                 Sums(phase.sums.total + r.totalRows, phase.sums.success + r.successCount,
                     phase.sums.failed + r.failedCount))
  {
  }

  lemma InsertedFound(stored: Stored, found: set<Code>, r: ChunkResult)
    ensures Inserted(stored, found, r).found == stored.found + [found]
  {
  }

  lemma InsertedTallied(c: Config, job: J.Job, stored: Stored, found: set<Code>, r: ChunkResult, now: nat)
    requires |stored.found| < |c.chunks| && Tallied(job, stored, Replay(c, stored.found))
    requires Stands(c.id, c.chunks[|stored.found|], SeenBefore(c, |stored.found|), found, r)
    ensures Tallied(J.Heartbeat(J.RecordChunk(job, r.totalRows, r.successCount, r.failedCount), now),
                    Inserted(stored, found, r), Replay(c, stored.found + [found]))
  {
    var k := |stored.found|;
    JudgeCounts(c.id, c.chunks[k], SeenBefore(c, k), found);
    hide Judge, Replay, Tallied, Inserted;
    ReplayNext(c, stored.found, found);
    TalliedNext(job, stored, Replay(c, stored.found), Judge(c.id, c.chunks[k], SeenBefore(c, k), found),
        |c.chunks[k]|, r, found, now);
  }

  // --- Looking up -------------------------------------------------------------------------------

  lemma OwnCodesSeen(c: Config, s: State)
    requires StoredInv(c, s)
    ensures CodeSet(s.stored.shipments) <= SeenBefore(c, |s.stored.found|)
    ensures DistinctCodes(s.stored.shipments)
  {
    ReplayCodes(c, s.stored.found);
    CodeSetOfValid(Replay(c, s.stored.found).valid);
  }

  lemma LookUpKeepsProgress(c: Config, s: State, w: WorkerId, others: set<Code>)
    requires AccountInv(c, s) && ChunkEnabled(c, s, w, LookUpChunk(others))
    ensures ProgressInv(c, s, Looked(c, s.stored.shipments, s.workers[w].phase, others))
  {
    var phase := s.workers[w].phase;
    assert ProgressInv(c, s, phase);
    OwnCodesSeen(c, s);
  }

  lemma RaceKeepsProgress(c: Config, s: State, w: WorkerId, others: set<Code>)
    requires AccountInv(c, s) && ChunkEnabled(c, s, w, Reclassify(others))
    ensures ProgressInv(c, s, Raced(c, s.stored.shipments, s.workers[w].phase, others))
  {
    var phase := s.workers[w].phase;
    assert ProgressInv(c, s, phase);
    OwnCodesSeen(c, s);
    var rows, seen := c.chunks[phase.done], SeenBefore(c, phase.done);
    ReclassificationIsLaterLookup(c.id, rows, seen, phase.found, phase.result, others + CodeSet(s.stored.shipments));
    JudgeCounts(c.id, rows, seen, phase.found);
    assert phase.result.validRows == Judge(c.id, rows, seen, phase.found).valid;
  }

  // --- Steps of others --------------------------------------------------------------------------

  predicate TakenBy(a: Action, w: WorkerId) {
    (a.Intake? || a.Chunk? || a.Ending?) && a.w == w
  }

  /** A worker's transaction changes the row or the import's rows only under the worker's own token. */
  lemma ChunkGuarded(c: Config, s: State, w: WorkerId, a: ChunkAction)
    requires ChunkEnabled(c, s, w, a)
    requires !J.Owned(s.job, s.workers[w].phase.claim.token)
    ensures ChunkNext(c, s, w, a).job == s.job && ChunkNext(c, s, w, a).stored == s.stored
  {
    hide Looked, Raced;
  }

  lemma EndingGuarded(c: Config, s: State, w: WorkerId, a: EndingAction)
    requires EndingEnabled(c, s, w, a)
    requires HasClaim(s.workers[w]) ==> !J.Owned(s.job, s.workers[w].phase.claim.token)
    ensures EndingNext(c, s, w, a).job == s.job && EndingNext(c, s, w, a).stored == s.stored
  {
  }

  lemma OthersLeaveOwned(c: Config, s: State, a: Action, w: WorkerId)
    requires JobInv(c, s) && WorkersInv(c, s) && Enabled(c, s, a) && !TakenBy(a, w)
    requires w in s.workers && HasClaim(s.workers[w])
    requires J.Owned(s.job, s.workers[w].phase.claim.token)
        && J.Owned(Next(c, s, a).job, s.workers[w].phase.claim.token)
    ensures Next(c, s, a).job == s.job && Next(c, s, a).stored == s.stored
  {
    match a
    case ByPublisher(_) => hide BoxNext, Exhausts;
    case ByBroker(_) =>
    case Intake(_, _) =>
    case Chunk(x, y) => ChunkGuarded(c, s, x, y);
    case Ending(x, y) => EndingGuarded(c, s, x, y);
    case ByWatchdog(_, _, _) =>
  }

  lemma NobodyElseMoves(c: Config, s: State, s': State, x: WorkerId, w: WorkerId)
    requires x in s.workers && WorkerFrame(c, s, s', x) && w != x
    ensures w in s'.workers <==> w in s.workers
    ensures w in s.workers ==> s'.workers[w] == s.workers[w]
  {
  }

  lemma OthersKeepWorker(c: Config, s: State, a: Action, w: WorkerId)
    requires Enabled(c, s, a) && !TakenBy(a, w)
    ensures w in s.workers ==> w in Next(c, s, a).workers && Next(c, s, a).workers[w] == s.workers[w]
    ensures w in Next(c, s, a).workers && w !in s.workers ==> Next(c, s, a).workers[w].phase.Delivered?
  {
    hide WorkerFrame, QueueFrame, Fades, BoxNext, Exhausts, IntakeNext, ChunkNext, EndingNext;
    match a
    case ByPublisher(_) =>
    case ByBroker(_) =>
    case Intake(x, y) => IntakeFrames(c, s, x, y); NobodyElseMoves(c, s, Next(c, s, a), x, w);
    case Chunk(x, y) => ChunkFrames(c, s, x, y); NobodyElseMoves(c, s, Next(c, s, a), x, w);
    case Ending(x, y) => EndingFrames(c, s, x, y); NobodyElseMoves(c, s, Next(c, s, a), x, w);
    case ByWatchdog(_, _, _) =>
  }

  /** While a worker owns the row, no step of anyone else changes the row, the import's rows, or that worker. */
  lemma OwnerUndisturbed(c: Config, s: State, a: Action, w: WorkerId)
    requires JobInv(c, s) && WorkersInv(c, s) && Enabled(c, s, a) && !TakenBy(a, w)
    requires w in s.workers && HasClaim(s.workers[w])
    requires J.Owned(Next(c, s, a).job, s.workers[w].phase.claim.token)
    ensures var s' := Next(c, s, a);
            s'.job == s.job && s'.stored == s.stored && w in s'.workers && s'.workers[w] == s.workers[w]
  {
    StepFades(c, s, a);
    assert ClaimInv(c, s, s.workers[w]);
    OthersLeaveOwned(c, s, a, w);
    OthersKeepWorker(c, s, a, w);
  }

  lemma OthersKeepProgress(c: Config, s: State, a: Action, w: WorkerId)
    requires JobInv(c, s) && WorkersInv(c, s) && AccountInv(c, s) && Enabled(c, s, a) && !TakenBy(a, w)
    requires w in Next(c, s, a).workers
    ensures ProgressInv(c, Next(c, s, a), Next(c, s, a).workers[w].phase)
  {
    var s' := Next(c, s, a);
    OthersKeepWorker(c, s, a, w);
    if w in s.workers && HasClaim(s.workers[w]) {
      assert ProgressInv(c, s, s.workers[w].phase);
      if J.Owned(s'.job, s.workers[w].phase.claim.token) {
        OwnerUndisturbed(c, s, a, w);
      }
    }
  }

  lemma ChunkKeepsStored(c: Config, s: State, w: WorkerId, a: ChunkAction)
    requires AccountInv(c, s) && ChunkEnabled(c, s, w, a)
    ensures StoredInv(c, ChunkNext(c, s, w, a))
  {
    assert ProgressInv(c, s, s.workers[w].phase);
    if a.PersistChunk? && J.Owned(s.job, s.workers[w].phase.claim.token) {
      PersistKeepsStored(c, s, w, a);
    } else {
      hide Looked, Raced, Inserted;
    }
  }

  lemma StoredInvKept(c: Config, s: State, a: Action)
    requires AccountInv(c, s) && Enabled(c, s, a)
    ensures StoredInv(c, Next(c, s, a))
  {
    hide AccountInv, StoredInv;
    AccountParts(c, s);
    if a.Chunk? {
      ChunkKeepsStored(c, s, a.w, a.chunk);
    } else {
      OthersKeepCounters(c, s, a);
      StoredInvFrame(c, s, Next(c, s, a));
    }
  }

  lemma AccountParts(c: Config, s: State)
    requires AccountInv(c, s)
    ensures StoredInv(c, s)
  {
  }

  /** Stored rows and counters are as they were, and the import is completed only if it was. */
  predicate SameCounts(s: State, s': State) {
    && s'.stored == s.stored
    && s'.job.totalRows == s.job.totalRows && s'.job.processedRows == s.job.processedRows
    && s'.job.successCount == s.job.successCount && s'.job.failedCount == s.job.failedCount
    && (s'.job.status == J.COMPLETED ==> s.job.status == J.COMPLETED)
  }

  lemma OthersKeepCounters(c: Config, s: State, a: Action)
    requires Enabled(c, s, a) && !a.Chunk?
    ensures SameCounts(s, Next(c, s, a))
  {
    match a
    case ByPublisher(_) => hide BoxNext, Exhausts;
    case ByBroker(_) =>
    case Intake(x, y) =>
    case Ending(x, y) =>
    case ByWatchdog(_, _, _) =>
  }

  lemma StoredInvFrame(c: Config, s: State, s': State)
    requires StoredInv(c, s) && SameCounts(s, s')
    ensures StoredInv(c, s')
  {
    hide Replay;
  }

  lemma EndingLeavesProgress(c: Config, s: State, w: WorkerId, a: EndingAction)
    requires EndingEnabled(c, s, w, a) && w in EndingNext(c, s, w, a).workers
    ensures var phase := EndingNext(c, s, w, a).workers[w].phase; phase.Troubled? || phase.Failing? || phase.Requeued?
  {
  }

  lemma OwnStepKeepsProgress(c: Config, s: State, a: Action, w: WorkerId)
    requires AccountInv(c, s) && Enabled(c, s, a) && TakenBy(a, w) && w in Next(c, s, a).workers
    ensures ProgressInv(c, Next(c, s, a), Next(c, s, a).workers[w].phase)
  {
    match a
    case Intake(_, x) => IntakeFrames(c, s, w, x);
    case Chunk(_, x) => ChunkKeepsProgress(c, s, w, x);
    case Ending(_, x) => EndingLeavesProgress(c, s, w, x);
  }

  lemma PhaseInv(c: Config, s: State, w: WorkerId, a: ChunkAction)
    requires AccountInv(c, s) && ChunkEnabled(c, s, w, a)
    ensures w in s.workers && ProgressInv(c, s, s.workers[w].phase)
  {
  }

  /** What a chunk transaction makes of its worker, if the worker goes on. */
  lemma ChunkParts(c: Config, s: State, w: WorkerId, a: ChunkAction)
    requires ChunkEnabled(c, s, w, a) && w in ChunkNext(c, s, w, a).workers
    ensures var s', phase := ChunkNext(c, s, w, a), s.workers[w].phase;
            match a
            case LookUpChunk(others) =>
              s'.job == s.job && s'.stored == s.stored
              && s'.workers[w].phase == Looked(c, s.stored.shipments, phase, others)
            case Reclassify(others) =>
              s'.job == s.job && s'.stored == s.stored
              && s'.workers[w].phase == Raced(c, s.stored.shipments, phase, others)
            case IntegrityFails =>
              s'.job == s.job && s'.stored == s.stored && phase.LookedUp?
              && s'.workers[w].phase == Conflicted(phase.claim, phase.done, phase.sums, phase.found, phase.result)
            case PersistChunk(_, _) => phase.LookedUp? && J.Owned(s.job, phase.claim.token)
            case ResetRows =>
              phase.Claimed? && s'.stored == NOTHING
              && s'.job.totalRows == s'.job.successCount == s'.job.failedCount == 0
              && s'.workers[w].phase == Running(phase.claim, 0, Sums(0, 0, 0))
            case CompleteImport(_) => false
            case Stop => false
  {
    hide Looked, Raced, Inserted;
  }

  lemma ProgressFrame(c: Config, s: State, s': State, phase: Phase)
    requires ProgressInv(c, s, phase) && s'.job == s.job && s'.stored == s.stored
    ensures ProgressInv(c, s', phase)
  {
    hide Stands;
  }

  lemma ConflictKeepsProgress(c: Config, s: State, phase: Phase)
    requires phase.LookedUp? && ProgressInv(c, s, phase)
    ensures ProgressInv(c, s, Conflicted(phase.claim, phase.done, phase.sums, phase.found, phase.result))
  {
    hide Stands;
  }

  lemma ResetKeepsProgress(c: Config, s: State, claim: Claim)
    requires s.stored == NOTHING && s.job.totalRows == s.job.successCount == s.job.failedCount == 0
    ensures ProgressInv(c, s, Running(claim, 0, Sums(0, 0, 0)))
  {
  }

  lemma ChunkKeepsProgress(c: Config, s: State, w: WorkerId, a: ChunkAction)
    requires AccountInv(c, s) && ChunkEnabled(c, s, w, a) && w in ChunkNext(c, s, w, a).workers
    ensures ProgressInv(c, ChunkNext(c, s, w, a), ChunkNext(c, s, w, a).workers[w].phase)
  {
    PhaseInv(c, s, w, a);
    ChunkParts(c, s, w, a);
    hide *;
    var s' := ChunkNext(c, s, w, a);
    match a
    case LookUpChunk(others) =>
      LookUpKeepsProgress(c, s, w, others);
      ProgressFrame(c, s, s', s'.workers[w].phase);
    case Reclassify(others) =>
      RaceKeepsProgress(c, s, w, others);
      ProgressFrame(c, s, s', s'.workers[w].phase);
    case PersistChunk(_, _) => PersistKeepsStored(c, s, w, a);
    case IntegrityFails =>
      ConflictKeepsProgress(c, s, s.workers[w].phase);
      ProgressFrame(c, s, s', s'.workers[w].phase);
    case ResetRows => ResetKeepsProgress(c, s', s.workers[w].phase.claim);
    case CompleteImport(_) =>
    case Stop =>
  }

  lemma AccountInvKept(c: Config, s: State, a: Action)
    requires JobInv(c, s) && WorkersInv(c, s) && AccountInv(c, s) && Enabled(c, s, a)
    ensures AccountInv(c, Next(c, s, a))
  {
    var s' := Next(c, s, a);
    StoredInvKept(c, s, a);
    forall w | w in s'.workers ensures ProgressInv(c, s', s'.workers[w].phase) {
      if TakenBy(a, w) {
        OwnStepKeepsProgress(c, s, a, w);
      } else {
        OthersKeepProgress(c, s, a, w);
      }
    }
  }
}
