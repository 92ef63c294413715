/**
 * One worker run, transaction by transaction, with other processes acting in between. An exception that
 * rolls a transaction back is a result; which operation fails, and when, is left open.
 */
module ProcessImport {
  import opened Domain
  import opened Verdicts
  import opened RowParsing
  import opened Workbook
  import opened Database
  import opened Repositories
  import opened Refinement
  import opened RowValidation
  import opened Lifecycle
  import opened Accounting
  import opened Outcomes
  import opened Journal
  import opened RunJournal
  import opened Undisturbed
  import J = ImportJobs

  /** The configuration is that of this import and of this file. */
  predicate ConfigOf(c: Config, adapters: Adapters, id: ImportId, chunks: seq<seq<WorkbookRow>>) {
    c.id == id && c.chunks == PreparedChunks(adapters, chunks)
  }

  function PreparedChunks(adapters: Adapters, chunks: seq<seq<WorkbookRow>>): (r: seq<seq<PreparedRow>>)
    ensures |r| == |chunks|
    ensures forall k :: 0 <= k < |chunks| ==> r[k] == PrepareAll(adapters, chunks[k])
  {
    seq(|chunks|, k requires 0 <= k < |chunks| => PrepareAll(adapters, chunks[k]))
  }

  function SumsOf(v: Verdicts): Sums {
    Sums(|v.valid| + v.failed, |v.valid|, v.failed)
  }

  /** The configuration is that of this import and of this workbook, as the parser cuts it. */
  ghost predicate WorksOn(c: Config, adapters: Adapters, id: ImportId, parser: XlsxParser) {
    exists chunks :: parser.Cuts(chunks) && ConfigOf(c, adapters, id, chunks)
  }

  /** The tables of a session now, with the worker at this place. */
  function Seen(session: Session, place: Place): View
    reads session
  {
    View(session.jobs, session.shipments, session.errors, session.turn, place)
  }

  class ProcessImportService {
    const session: Session
    const claims: ImportClaimRepository
    const progress: ImportProgressRepository
    const shipments: ShipmentRepository
    const importErrors: ImportErrorRepository
    const validator: RowValidationService
    const workerId: string

    constructor (session: Session, adapters: Adapters, workerId: string)
      ensures this.session == session && validator.adapters == adapters && this.workerId == workerId && Wired()
    {
      this.session, this.workerId := session, workerId;
      claims := new ImportClaimRepository(session);
      progress := new ImportProgressRepository(session);
      var repository := new ShipmentRepository(session);
      shipments := repository;
      importErrors := new ImportErrorRepository(session);
      validator := new RowValidationService(adapters, repository);
    }

    ghost predicate Wired() {
      && claims.session == session && progress.session == session && shipments.session == session
      && importErrors.session == session && validator.shipmentRepository == shipments
    }

    /** The tables now, with the worker at this place. */
    function See(place: Place): View
      reads session
    {
      Seen(session, place)
    }

    /** The fault that the world has for this moment and this point of the run. */
    function Accident(point: Point): Option<Trouble>
      reads session
    {
      AccidentAt(session.world, session.turn, point)
    }

    /** The journal is that of this claim, among the others of this session. */
    ghost predicate Mine(log: Log, claim: ClaimedImport) {
      log.me.token == claim.processingToken && log.me.world == session.world
    }

    function Rows(id: ImportId): Stored
      reads session
    {
      Stored(ShipmentsIn(id, session.shipments), multiset(ErrorsIn(id, session.errors)), [])
    }

    /** While this worker owns the import, it remembers the attempt and the maximum of its row. */
    ghost predicate Remembers(claim: ClaimedImport)
      reads session
    {
      && session.Valid() && claim.importId in session.jobs
      && (session.OwnedBy(claim.importId, claim.processingToken) ==>
            && session.jobs[claim.importId].attemptCount == claim.attemptCount
            && session.jobs[claim.importId].maxAttempts == claim.maxAttempts)
    }

    /**
     * While this worker owns the import, row and tables hold exactly the chunks judged with `found`, and every
     * code found is one that another import has stored.
     */
    ghost predicate InAccount(c: Config, claim: ClaimedImport, found: seq<set<Code>>)
      reads session
    {
      && Remembers(claim) && c.id == claim.importId && |found| <= |c.chunks|
      && (session.OwnedBy(c.id, claim.processingToken) ==>
            && Tallied(session.jobs[c.id], Rows(c.id), Replay(c, found))
            && FoundElsewhere(c.id, found, session.ever))
    }

    /** While this worker owns the import, these codes are some that other imports have stored. */
    ghost predicate Elsewhere(claim: ClaimedImport, codes: set<Code>)
      reads session
    {
      session.OwnedBy(claim.importId, claim.processingToken) ==> codes <= OthersCodes(claim.importId, session.ever)
    }

    /** What other processes do keeps the account, and whatever codes were found elsewhere. */
    method Interleave(ghost c: Config, claim: ClaimedImport, ghost found: seq<set<Code>>, ghost more: set<Code>,
                      ghost log: Log, ghost place: Place)
      returns (ghost log': Log)
      requires InAccount(c, claim, found) && Elsewhere(claim, more) && Kept(c, log, See(place)) && Mine(log, claim)
      modifies session
      ensures Continues(c, log, log', See(place))
      ensures InAccount(c, claim, found) && Elsewhere(claim, more) && old(session.ever) <= session.ever
      ensures session.OwnedBy(c.id, claim.processingToken) ==> old(session.OwnedBy(c.id, claim.processingToken))
    {
      hide FoundElsewhere, OthersCodes, Tallied, Replay, Kept, Continues;
      session.OtherProcesses(claim.importId, claim.processingToken);
      log' := KeepOthers(c, log, old(See(place)));
      FoundGrow(c.id, found, old(session.ever), session.ever);
      OthersGrow(c.id, old(session.ever), session.ever);
    }

    method InterleaveAfterClaim(ghost c: Config, claim: ClaimedImport, ghost log: Log, ghost place: Place)
      returns (ghost log': Log)
      requires Remembers(claim) && c.id == claim.importId && Kept(c, log, See(place)) && Mine(log, claim)
      modifies session
      ensures Remembers(claim) && Continues(c, log, log', See(place))
    {
      hide Kept, Continues;
      session.OtherProcesses(claim.importId, claim.processingToken);
      log' := KeepOthers(c, log, old(See(place)));
    }

    /** The rows and counters of earlier attempts go, in one transaction, or nothing does. */
    method PrepareForReprocessing(ghost c: Config, claim: ClaimedImport, accident: Option<Trouble>)
      returns (r: Attempt<()>)
      requires Wired() && Remembers(claim) && c.id == claim.importId
      modifies session
      ensures Remembers(claim)
      ensures r == if accident.Some? then Aborted(accident.value)
                   else if old(session.OwnedBy(c.id, claim.processingToken)) then Done(()) else Aborted(StaleWorker)
      ensures r.Done? ==>
                && session.jobs == old(session.jobs)[c.id := J.Reset(old(session.jobs)[c.id])]
                && session.shipments == ShipmentsOutside(c.id, old(session.shipments))
                && session.errors == ErrorsOutside(c.id, old(session.errors))
                && InAccount(c, claim, [])
      ensures r.Aborted? ==>
                && session.jobs == old(session.jobs) && session.shipments == old(session.shipments)
                && session.errors == old(session.errors)
      ensures session.events == old(session.events) && session.turn == old(session.turn)
    {
      hide Replay, Tallied, ShipmentsIn, ErrorsIn, ShipmentsOutside, ErrorsOutside, DistinctCodes, OthersCodes;
      if accident.Some? {
        return Aborted(accident.value);
      }
      var updated := progress.ResetForReprocessing(claim.importId, claim.processingToken);
      if !updated {
        return Aborted(StaleWorker);
      }
      var _ := shipments.DeleteByImportId(claim.importId);
      var _ := importErrors.DeleteByImportId(claim.importId);
      NothingStored(c, old(session.jobs[c.id]), old(session.shipments), old(session.errors));
      return Done(());
    }

    /** Insert the rows and add the counts under the token, or roll everything back. */
    method PersistChunk(id: ImportId, token: Token, result: ChunkResult, accident: Option<Trouble>)
      returns (r: Attempt<()>)
      requires Wired() && session.Valid()
      modifies session
      ensures session.Valid()
      ensures r == if accident.Some? then Aborted(accident.value)
                   else if Collides(session.world, session.turn, result.shipments, old(session.shipments))
                   then Aborted(Integrity)
                   else if old(session.OwnedBy(id, token)) then Done(()) else Aborted(StaleWorker)
      ensures r.Done? ==>
                && session.jobs == old(session.jobs)[id := J.Heartbeat(J.RecordChunk(old(session.jobs)[id],
                     result.totalRows, result.successCount, result.failedCount), session.world.clock(session.turn))]
                && session.shipments == old(session.shipments) + result.shipments
                && session.errors == old(session.errors) + AllNormalised(result.errors)
      ensures r.Aborted? ==>
                && session.jobs == old(session.jobs) && session.shipments == old(session.shipments)
                && session.errors == old(session.errors) && session.ever == old(session.ever)
      ensures session.events == old(session.events) && session.turn == old(session.turn)
      ensures old(session.ever) <= session.ever
    {
      hide Collides;
      var jobs, rows, errors := session.jobs, session.shipments, session.errors;
      ghost var ever := session.ever;
      if accident.Some? {
        return Aborted(accident.value);
      }
      var flush := shipments.BulkInsert(result.shipments);
      if flush.IntegrityError? {
        return Aborted(Integrity);
      }
      var _ := importErrors.BulkInsert(result.errors);
      var counted := progress.RecordChunkCounts(id, token, result.totalRows, result.successCount, result.failedCount);
      if !counted {
        session.jobs, session.shipments, session.errors, session.ever := jobs, rows, errors, ever;
        return Aborted(StaleWorker);
      }
      // The counters were updated under the same guard in this transaction, so the heartbeat finds the row.
      var beat := progress.Heartbeat(id, token, session.world.clock(session.turn));
      assert beat;
      return Done(());
    }

    /** A chunk persisted by an owner extends the account by that chunk. */
    method PersistInAccount(ghost c: Config, claim: ClaimedImport, result: ChunkResult,
                            ghost found: seq<set<Code>>, ghost more: set<Code>, ghost log: Log, ghost sums: Sums)
      returns (r: Attempt<()>, ghost log': Log)
      requires Wired() && InAccount(c, claim, found) && |found| < |c.chunks|
      requires Stands(c.id, c.chunks[|found|], SeenBefore(c, |found|), more, result) && Elsewhere(claim, more)
      requires Kept(c, log, See(In(LookedUp(ClaimOf(claim), |found|, sums, more, result)))) && Mine(log, claim)
      modifies session
      ensures Continues(c, log, log', See(AfterPersisting(claim, |found|, sums, more, result, r)))
      ensures r.Done? ==> InAccount(c, claim, found + [more]) && session.OwnedBy(c.id, claim.processingToken)
      ensures r.Aborted? ==> InAccount(c, claim, found) && Elsewhere(claim, more)
      ensures old(session.ever) <= session.ever
    {
      hide Replay, Tallied, Judge, Stands, ShipmentsIn, ErrorsIn, FoundElsewhere, OthersCodes, Kept, Continues, CodeSet;
      hide Collides;
      r := PersistChunk(claim.importId, claim.processingToken, result, Accident(AtCommit));
      log' := PersistLog(c, log, claim, old(See(In(LookedUp(ClaimOf(claim), |found|, sums, more, result)))), r,
        See(AfterPersisting(claim, |found|, sums, more, result, r)));
      if r.Done? {
        PersistedAccount(c, old(session.jobs[c.id]), old(session.shipments), old(session.errors), found, more, result,
          session.world.clock(session.turn));
        FoundGrow(c.id, found, old(session.ever), session.ever);
        OthersGrow(c.id, old(session.ever), session.ever);
        FoundSnoc(c.id, found, more, session.ever);
      }
    }

    /** One round of the race: look up what is stored by now, turn those rows into errors, and insert again. */
    method RaceRound(ghost c: Config, claim: ClaimedImport, current: ChunkResult,
                     ghost found: seq<set<Code>>, ghost more: set<Code>, ghost log: Log, ghost sums: Sums)
      returns (r: Round, ghost more': set<Code>, ghost log': Log)
      requires Wired() && InAccount(c, claim, found) && |found| < |c.chunks|
      requires Stands(c.id, c.chunks[|found|], SeenBefore(c, |found|), more, current) && Elsewhere(claim, more)
      requires Kept(c, log, See(In(Conflicted(ClaimOf(claim), |found|, sums, more, current)))) && Mine(log, claim)
      modifies session
      ensures Continues(c, log, log', See(AfterRace(claim, |found|, sums, more', r)))
      ensures more <= more' && more' - more <= CodesIn(session.ever) && old(session.ever) <= session.ever
      ensures !r.Persisted? ==> InAccount(c, claim, found)
      ensures r.Persisted? ==> InAccount(c, claim, found + [more']) && session.OwnedBy(c.id, claim.processingToken)
      ensures !r.Ended? ==>
                && Stands(c.id, c.chunks[|found|], SeenBefore(c, |found|), more', r.result)
                && r.result.successCount < current.successCount
      ensures r.Collided? ==> Elsewhere(claim, more')
      ensures old(Accident(AtRound)).Some? ==> r == Ended(old(Accident(AtRound)).value)
      ensures old(Accident(AtRound)).None? && !old(session.OwnedBy(claim.importId, claim.processingToken)) ==>
                r == Ended(StaleWorker)
    {
      hide Stands, Reclassified, Tallied, Replay, OthersCodes, CodesIn, FoundElsewhere, ValidCodes, CodeSet;
      hide Kept, SeenBefore, InAccount, Elsewhere;
      more' := more;
      var trouble := Accident(AtRound);
      ghost var conflicted := In(Conflicted(ClaimOf(claim), |found|, sums, more, current));
      if trouble.Some? {
        log' := TroubleLog(c, log, claim, See(conflicted), trouble.value);
        return Ended(trouble.value), more', log';
      }
      var owned := progress.HasCurrentOwnership(claim.importId, claim.processingToken);
      if !owned {
        AccountRemembers(c, claim, found);
        log' := ChunkLog(c, log, See(conflicted), Stop);
        return Ended(StaleWorker), more', log';
      }
      log' := Interleave(c, claim, found, more, log, conflicted);
      trouble := Accident(AtLookup);
      if trouble.Some? {
        log' := TroubleLog(c, log', claim, See(conflicted), trouble.value);
        return Ended(trouble.value), more', log';
      }
      var corrected;
      corrected, more', log' := Correct(c, claim, current, found, more, log', sums);
      if corrected.successCount == current.successCount {
        return Ended(Integrity), more', log';
      }
      ghost var ever := session.ever;
      log' := Interleave(c, claim, found, more', log', In(LookedUp(ClaimOf(claim), |found|, sums, more', corrected)));
      OthersGrow(c.id, ever, session.ever);
      ever := session.ever;
      var persisted;
      persisted, log' := PersistInAccount(c, claim, corrected, found, more', log', sums);
      OthersGrow(c.id, ever, session.ever);
      if persisted.Done? {
        return Persisted(corrected), more', log';
      }
      if persisted.trouble != Integrity {
        return Ended(persisted.trouble), more', log';
      }
      return Collided(corrected), more', log';
    }

    /** The lookup of a round; it finds codes of others alone, and its result stands for the codes found so far. */
    method Correct(ghost c: Config, claim: ClaimedImport, current: ChunkResult,
                   ghost found: seq<set<Code>>, ghost more: set<Code>, ghost log: Log, ghost sums: Sums)
      returns (corrected: ChunkResult, ghost more': set<Code>, ghost log': Log)
      requires Wired() && InAccount(c, claim, found) && |found| < |c.chunks|
      requires Stands(c.id, c.chunks[|found|], SeenBefore(c, |found|), more, current) && Elsewhere(claim, more)
      requires Kept(c, log, See(In(Conflicted(ClaimOf(claim), |found|, sums, more, current)))) && Mine(log, claim)
      requires Accident(AtLookup).None?
      ensures var conflicted := Conflicted(ClaimOf(claim), |found|, sums, more, current);
              Continues(c, log, log', See(In(AfterRound(conflicted, more', corrected))))
      ensures Stands(c.id, c.chunks[|found|], SeenBefore(c, |found|), more', corrected) && Elsewhere(claim, more')
      ensures more <= more' && more' - more <= CodesIn(session.ever)
      ensures corrected.successCount <= current.successCount
    {
      hide Stands, Reclassified, Tallied, Replay, OthersCodes, CodesIn, FoundElsewhere, ValidCodes, CodeSet;
      hide Kept, SeenBefore;
      ghost var stored := CodeSet(session.shipments);
      RaceFindsOthers(c, session.jobs[c.id], session.shipments, session.errors, found, more, current);
      StoredAreEver(c.id, session.shipments, session.ever);
      corrected := validator.ReclassifyDatabaseDuplicates(claim.importId, current);
      log' := RaceLog(c, log, See(In(Conflicted(ClaimOf(claim), |found|, sums, more, current))), corrected);
      ReclassificationIsLaterLookup(c.id, c.chunks[|found|], SeenBefore(c, |found|), more, current, stored);
      more' := more + ValidCodes(current.validRows) * stored;
    }

    /**
     * The race: while inserts collide, look up what is stored by now and turn those rows into errors. A
     * round that goes on keeps fewer rows than the one before, so the rounds are at most one more than the
     * rows of the first result; whatever is committed stands for judging the chunk with the codes found, and
     * every code found in the race has been stored, by another import while this worker owns its own.
     */
    method PersistChunkAfterDuplicateRace(ghost c: Config, claim: ClaimedImport, first: ChunkResult,
                                          ghost found: seq<set<Code>>, ghost more: set<Code>,
                                          ghost log: Log, ghost sums: Sums)
      returns (r: Attempt<ChunkResult>, ghost more': set<Code>, ghost rounds: nat, ghost log': Log)
      requires Wired() && InAccount(c, claim, found) && |found| < |c.chunks|
      requires Stands(c.id, c.chunks[|found|], SeenBefore(c, |found|), more, first) && Elsewhere(claim, more)
      requires Kept(c, log, See(In(Conflicted(ClaimOf(claim), |found|, sums, more, first)))) && Mine(log, claim)
      modifies session
      ensures Continues(c, log, log', See(AfterStoring(claim, |found|, sums, r)))
      ensures rounds <= first.successCount + 1
      ensures more <= more' && more' - more <= CodesIn(session.ever) && old(session.ever) <= session.ever
      ensures r.Aborted? ==> InAccount(c, claim, found)
      ensures r.Done? ==>
                && InAccount(c, claim, found + [more']) && session.OwnedBy(c.id, claim.processingToken)
                && Stands(c.id, c.chunks[|found|], SeenBefore(c, |found|), more', r.value)
                && r.value.successCount < first.successCount
    {
      hide Stands, CodesIn, SeenBefore, InAccount, Elsewhere, Kept;
      var current := first;
      more', rounds, log' := more, 0, log;
      while true
        invariant Continues(c, log, log', See(In(Conflicted(ClaimOf(claim), |found|, sums, more', current))))
        invariant InAccount(c, claim, found)
        invariant Stands(c.id, c.chunks[|found|], SeenBefore(c, |found|), more', current)
        invariant Elsewhere(claim, more') && old(session.ever) <= session.ever
        invariant more <= more' && more' - more <= CodesIn(session.ever)
        invariant current.successCount + rounds <= first.successCount
        decreases current.successCount
      {
        rounds := rounds + 1;
        ghost var ever := session.ever;
        var round;
        round, more', log' := RaceRound(c, claim, current, found, more', log', sums);
        OthersGrow(c.id, ever, session.ever);
        if round.Persisted? {
          return Done(round.result), more', rounds, log';
        }
        if round.Ended? {
          return Aborted(round.trouble), more', rounds, log';
        }
        current := round.result;
        ever := session.ever;
        log' := Interleave(c, claim, found, more', log',
          In(Conflicted(ClaimOf(claim), |found|, sums, more', current)));
        OthersGrow(c.id, ever, session.ever);
      }
    }

    /** The lookup of a chunk; it finds codes of others alone, and its result stands for the codes found. */
    method LookUp(ghost c: Config, claim: ClaimedImport, chunks: seq<seq<WorkbookRow>>, k: nat,
                  tracker: DuplicateTracker, ghost found: seq<set<Code>>, ghost log: Log, ghost sums: Sums)
      returns (result: ChunkResult, ghost more: set<Code>, ghost log': Log)
      requires Wired() && InAccount(c, claim, found)
      requires c.chunks == PreparedChunks(validator.adapters, chunks) && k == |found| < |chunks|
      requires tracker.seenShipmentCodes == SeenBefore(c, k)
      requires Kept(c, log, See(In(Running(ClaimOf(claim), k, sums)))) && Mine(log, claim)
      requires Accident(AtLookup).None?
      modifies tracker
      ensures Continues(c, log, log', See(In(LookedUp(ClaimOf(claim), k, sums, more, result))))
      ensures Stands(c.id, c.chunks[k], SeenBefore(c, k), more, result) && Elsewhere(claim, more)
      ensures more <= CodesIn(session.ever)
      ensures tracker.seenShipmentCodes == SeenBefore(c, k + 1)
    {
      hide Judge, Replay, Tallied, SeenBefore, CodesOf, Found, OthersCodes, CodesIn, FoundElsewhere, CodeSet, Kept;
      more := Found(c.chunks[k], SeenBefore(c, k), CodeSet(session.shipments));
      LookupFindsOthers(c, session.jobs[c.id], session.shipments, session.errors, found, more);
      StoredAreEver(c.id, session.shipments, session.ever);
      result := validator.ValidateChunk(chunks[k], tracker, claim.importId);
      log' := LookUpLog(c, log, See(In(Running(ClaimOf(claim), k, sums))), more, result);
      JudgementStands(c.id, c.chunks[k], SeenBefore(c, k), more);
      SeenNext(c, k);
    }

    /** The lookup and the insert of a chunk, with others in between, and the race after a collision. */
    method StoreChunk(ghost c: Config, claim: ClaimedImport, chunks: seq<seq<WorkbookRow>>, k: nat,
                      tracker: DuplicateTracker, ghost found: seq<set<Code>>, ghost log: Log, ghost sums: Sums)
      returns (r: Attempt<ChunkResult>, ghost more: set<Code>, ghost log': Log)
      requires Wired() && InAccount(c, claim, found)
      requires c.chunks == PreparedChunks(validator.adapters, chunks) && k == |found| < |chunks|
      requires tracker.seenShipmentCodes == SeenBefore(c, k)
      requires Kept(c, log, See(In(Running(ClaimOf(claim), k, sums)))) && Mine(log, claim)
      modifies session, tracker
      ensures Continues(c, log, log', See(AfterStoring(claim, k, sums, r)))
      ensures r.Aborted? ==> InAccount(c, claim, found)
      ensures more <= CodesIn(session.ever)
      ensures r.Done? ==>
                && InAccount(c, claim, found + [more])
                && Stands(c.id, c.chunks[k], SeenBefore(c, k), more, r.value)
                && tracker.seenShipmentCodes == SeenBefore(c, k + 1)
    {
      hide Stands, SeenBefore, CodesIn, Kept, Elsewhere, InAccount, PreparedChunks;
      NothingIsElsewhere(claim);
      log' := Interleave(c, claim, found, {}, log, In(Running(ClaimOf(claim), k, sums)));
      var trouble := Accident(AtLookup);
      if trouble.Some? {
        more := {};
        log' := TroubleLog(c, log', claim, See(In(Running(ClaimOf(claim), k, sums))), trouble.value);
        return Aborted(trouble.value), more, log';
      }
      ghost var ever := session.ever;
      var result;
      result, more, log' := LookUp(c, claim, chunks, k, tracker, found, log', sums);
      log' := Interleave(c, claim, found, more, log', In(LookedUp(ClaimOf(claim), k, sums, more, result)));
      var persisted;
      persisted, log' := PersistInAccount(c, claim, result, found, more, log', sums);
      OthersGrow(c.id, ever, session.ever);
      if persisted.Aborted? {
        if persisted.trouble != Integrity {
          return Aborted(persisted.trouble), more, log';
        }
        log' := Interleave(c, claim, found, more, log', In(Conflicted(ClaimOf(claim), k, sums, more, result)));
        var raced, more', _, log'' := PersistChunkAfterDuplicateRace(c, claim, result, found, more, log', sums);
        OthersGrow(c.id, ever, session.ever);
        return raced, more', log'';
      }
      return Done(result), more, log';
    }

    /** What stops a worker before its next chunk: a fault, the loss of its import, or a file it cannot read on. */
    function Checked(claim: ClaimedImport): Option<Trouble>
      reads session
    {
      var unreadable := session.world.unreadable(session.turn);
      if Accident(AtChunk).Some? then Accident(AtChunk)
      else if !(claim.importId in session.jobs && J.Owned(session.jobs[claim.importId], claim.processingToken))
      then Some(StaleWorker)
      else if unreadable.Some? then Some(WorkbookStructure(unreadable.value)) else None
    }

    /** The next chunk of the file, if the worker still owns the import and there is one. */
    method ProcessNextChunk(ghost c: Config, claim: ClaimedImport, chunks: seq<seq<WorkbookRow>>, k: nat,
                            tracker: DuplicateTracker, ghost found: seq<set<Code>>, ghost log: Log, ghost sums: Sums)
      returns (r: Attempt<Option<ChunkResult>>, ghost more: set<Code>, ghost log': Log)
      requires Wired() && InAccount(c, claim, found)
      requires c.chunks == PreparedChunks(validator.adapters, chunks) && k == |found|
      requires tracker.seenShipmentCodes == SeenBefore(c, k)
      requires Kept(c, log, See(In(Running(ClaimOf(claim), k, sums)))) && Mine(log, claim)
      modifies session, tracker
      ensures Continues(c, log, log', See(AfterChunk(claim, k, sums, r)))
      ensures r.Aborted? ==> InAccount(c, claim, found)
      ensures r.Done? && r.value.None? ==> k == |chunks| && InAccount(c, claim, found)
      ensures more <= CodesIn(session.ever)
      ensures r.Done? && r.value.Some? ==>
                && k < |chunks| && InAccount(c, claim, found + [more])
                && Stands(c.id, c.chunks[k], SeenBefore(c, k), more, r.value.value)
                && tracker.seenShipmentCodes == SeenBefore(c, k + 1)
      ensures old(Checked(claim)).Some? ==> r == Aborted(old(Checked(claim)).value)
      ensures old(Checked(claim)).None? && k == |chunks| ==> r == Done(None)
    {
      hide Stands, SeenBefore, Kept, CodesIn, Replay, Tallied, FoundElsewhere;
      more := {};
      ghost var running := In(Running(ClaimOf(claim), k, sums));
      var trouble := Accident(AtChunk);
      if trouble.Some? {
        log' := TroubleLog(c, log, claim, See(running), trouble.value);
        return Aborted(trouble.value), more, log';
      }
      var owned := progress.HasCurrentOwnership(claim.importId, claim.processingToken);
      if !owned {
        log' := ChunkLog(c, log, See(running), Stop);
        return Aborted(StaleWorker), more, log';
      }
      var unreadable := session.world.unreadable(session.turn);
      if unreadable.Some? {
        log' := TroubleLog(c, log, claim, See(running), WorkbookStructure(unreadable.value));
        return Aborted(WorkbookStructure(unreadable.value)), more, log';
      }
      if k == |chunks| {
        return Done(None), more, log;
      }
      var stored, more', log'' := StoreChunk(c, claim, chunks, k, tracker, found, log, sums);
      return if stored.Done? then Done(Some(stored.value)) else Aborted(stored.trouble), more', log'';
    }

    /** An owner's import fails for the given reason; anybody else's row is left alone. */
    method MarkFailed(claim: ClaimedImport, reason: string, accident: Option<Trouble>) returns (end: RunEnd)
      requires Wired() && Remembers(claim)
      modifies session
      ensures session.shipments == old(session.shipments) && session.errors == old(session.errors)
      ensures session.turn == old(session.turn)
      ensures end == if accident.Some? then Escaped
                     else if old(session.OwnedBy(claim.importId, claim.processingToken)) then EndedFailed(reason)
                     else StoppedAsStale
      ensures end.EndedFailed? ==>
                session.jobs == old(session.jobs)[claim.importId := J.Fail(old(session.jobs)[claim.importId], reason,
                  session.world.clock(session.turn))]
      ensures !end.EndedFailed? ==> session.jobs == old(session.jobs)
    {
      if accident.Some? {
        return Escaped;
      }
      var failed := progress.Fail(claim.importId, claim.processingToken, reason, session.world.clock(session.turn));
      return if failed then EndedFailed(reason) else StoppedAsStale;
    }

    /** A database failure uses up the attempt: the import goes back to pending, or fails if it was the last one. */
    method HandleOperationalFailure(claim: ClaimedImport, accident: Option<Trouble>) returns (end: RunEnd)
      requires Wired() && Remembers(claim)
      modifies session
      ensures session.shipments == old(session.shipments) && session.errors == old(session.errors)
      ensures session.turn == old(session.turn)
      ensures end == EndOf(claim, OperationalError, old(session.OwnedBy(claim.importId, claim.processingToken)),
          accident)
      ensures end.EndedFailed? ==>
                && old(session.jobs[claim.importId]).attemptCount >= old(session.jobs[claim.importId]).maxAttempts
                && session.jobs == old(session.jobs)[claim.importId := J.Fail(old(session.jobs)[claim.importId],
                     end.reason, session.world.clock(session.turn))]
      ensures end.RetryRequested? ==>
                && session.jobs == old(session.jobs)[claim.importId := J.Requeue(old(session.jobs)[claim.importId],
                    J.TEMPORARY_ERROR)]
                && J.Claimable(session.jobs[claim.importId])
      ensures end.StoppedAsStale? || end.Escaped? ==> session.jobs == old(session.jobs)
    {
      if claim.attemptCount >= claim.maxAttempts {
        end := MarkFailed(claim, J.MAX_ATTEMPTS, accident);
        return;
      }
      if accident.Some? {
        return Escaped;
      }
      var requeued := progress.RequeueForRetry(claim.importId, claim.processingToken, J.TEMPORARY_ERROR);
      return if requeued then RetryRequested else StoppedAsStale;
    }

    /** The exception handlers of a run that had a claim. */
    method Handle(claim: ClaimedImport, trouble: Trouble, accident: Option<Trouble>) returns (end: RunEnd)
      requires Wired() && Remembers(claim)
      modifies session
      ensures session.shipments == old(session.shipments) && session.errors == old(session.errors)
      ensures session.turn == old(session.turn)
      ensures end == EndOf(claim, trouble, old(session.OwnedBy(claim.importId, claim.processingToken)), accident)
      ensures end.EndedFailed? ==>
                session.jobs == old(session.jobs)[claim.importId := J.Fail(old(session.jobs)[claim.importId],
                  end.reason, session.world.clock(session.turn))]
      ensures end.RetryRequested? ==>
                && session.jobs == old(session.jobs)[claim.importId := J.Requeue(old(session.jobs)[claim.importId],
                    J.TEMPORARY_ERROR)]
                && J.Claimable(session.jobs[claim.importId])
      ensures end.StoppedAsStale? || end.Escaped? ==> session.jobs == old(session.jobs)
    {
      match trouble
      case StaleWorker => end := StoppedAsStale;
      case WorkbookStructure(message) => end := MarkFailed(claim, if message != "" then message else UNREADABLE,
          accident);
      case OperationalError => end := HandleOperationalFailure(claim, accident);
      case Integrity => end := MarkFailed(claim, J.PROCESSING_FAILED, accident);
      case OtherError => end := MarkFailed(claim, J.PROCESSING_FAILED, accident);
    }

    /** The claim transaction. A commit that fails is noticed only after the claim has been noted. */
    method ClaimImport(id: ImportId, token: Token, rowLocked: bool, early: Option<Trouble>, late: Option<Trouble>)
      returns (claim: Option<ClaimedImport>, trouble: Option<Trouble>)
      requires Wired() && session.Valid() && !session.OwnedBy(id, token)
      modifies session
      ensures session.shipments == old(session.shipments) && session.errors == old(session.errors)
      ensures session.turn == old(session.turn)
      ensures claim.Some? ==>
              claim.value.importId == id && claim.value.processingToken == token && Remembers(claim.value)
      ensures claim.Some? <==>
              early.None? && !rowLocked && id in old(session.jobs) && J.Claimable(old(session.jobs)[id])
      ensures trouble == if early.Some? then early else late
      ensures claim.Some? && trouble.None? ==>
                session.jobs == old(session.jobs)[id := J.Claim(old(session.jobs)[id], token, workerId,
                  session.world.clock(session.turn))]
      ensures claim.None? || trouble.Some? ==> session.jobs == old(session.jobs)
    {
      if early.Some? {
        return None, early;
      }
      var jobs := session.jobs;
      claim := claims.ClaimPendingImport(id, token, workerId, session.world.clock(session.turn), rowLocked);
      if late.Some? {
        session.jobs := jobs;
      }
      trouble := late;
    }

    /** The chunks one after the other, until the file ends or something happens. */
    method ProcessChunks(ghost c: Config, claim: ClaimedImport, chunks: seq<seq<WorkbookRow>>, ghost log: Log)
      returns (r: Attempt<Sums>, ghost found: seq<set<Code>>, ghost log': Log)
      requires Wired() && InAccount(c, claim, [])
      requires Kept(c, log, See(In(Running(ClaimOf(claim), 0, Sums(0, 0, 0))))) && Mine(log, claim)
      requires c.chunks == PreparedChunks(validator.adapters, chunks)
      modifies session
      ensures Continues(c, log, log', See(AfterProcessing(claim, |chunks|, r)))
      ensures InAccount(c, claim, found)
      ensures r.Done? ==> |found| == |chunks| && r.value == SumsOf(Replay(c, found))
    {
      hide Replay, Tallied, SeenBefore, Stands, Judge, SumsOf, OthersCodes, FoundElsewhere, Kept, Checked, CodesIn;
      found, log' := [], log;
      NoSums(c);
      var tracker := new DuplicateTracker();
      var sums, k := Sums(0, 0, 0), 0;
      while true
        invariant k == |found| <= |chunks|
        invariant Continues(c, log, log', See(In(Running(ClaimOf(claim), k, sums))))
        invariant InAccount(c, claim, found) && sums == SumsOf(Replay(c, found))
        invariant fresh(tracker) && tracker.seenShipmentCodes == SeenBefore(c, k)
        decreases |chunks| - k
      {
        var next, more, log'' := ProcessNextChunk(c, claim, chunks, k, tracker, found, log', sums);
        log' := log'';
        if next.Aborted? {
          return Aborted(next.trouble), found, log';
        }
        if next.value.None? {
          return Done(sums), found, log';
        }
        var result := next.value.value;
        SumsNext(c, found, more, result);
        found := found + [more];
        log' := Interleave(c, claim, found, {}, log', In(Running(ClaimOf(claim), k + 1, Added(sums, result))));
        sums := Sums(sums.total + result.totalRows, sums.success + result.successCount,
            sums.failed + result.failedCount);
        k := k + 1;
      }
    }

    /** The last transaction: an owner completes the import with the sums of its chunks. */
    method Complete(ghost c: Config, claim: ClaimedImport, sums: Sums, accident: Option<Trouble>,
                    ghost found: seq<set<Code>>)
      returns (r: Attempt<()>)
      requires Wired() && InAccount(c, claim, found) && sums == SumsOf(Replay(c, found))
      modifies session
      ensures session.shipments == old(session.shipments) && session.errors == old(session.errors)
      ensures session.turn == old(session.turn)
      ensures r == if accident.Some? then Aborted(accident.value)
                   else if old(session.OwnedBy(c.id, claim.processingToken)) then Done(()) else Aborted(StaleWorker)
      ensures r.Done? ==>
                && c.id in session.jobs && session.jobs[c.id].status == J.COMPLETED
                && Tallied(session.jobs[c.id], Rows(c.id), Replay(c, found))
                && FoundElsewhere(c.id, found, session.ever)
      ensures r.Done? ==>
                session.jobs == old(session.jobs)[c.id := J.Complete(old(session.jobs)[c.id], sums.total, sums.success,
                  sums.failed, session.world.clock(session.turn))]
      ensures session.turn == old(session.turn)
      ensures session.ever == old(session.ever)
      ensures r.Aborted? ==> session.jobs == old(session.jobs) && Remembers(claim)
    {
      hide Replay, FoundElsewhere;
      if accident.Some? {
        return Aborted(accident.value);
      }
      var completed := progress.Complete(claim.importId, claim.processingToken, sums.total, sums.success, sums.failed,
        session.world.clock(session.turn));
      return if completed then Done(()) else Aborted(StaleWorker);
    }

    /**
     * The completed import stores exactly the data rows of the workbook, and its counters count them: the
     * row-by-row verdicts of the file, for some codes that other imports have stored.
     */
    ghost predicate Imported(id: ImportId, parser: XlsxParser)
      reads session
    {
      && (exists held :: JudgedWith(id, parser, held))
      && id in session.jobs && session.jobs[id].status == J.COMPLETED
      && session.jobs[id].successCount == |Rows(id).shipments|
      && session.jobs[id].failedCount == |RowNumbers(Rows(id).errors)|
      && session.jobs[id].totalRows == |DataRows(parser.sheet, |parser.sheet|)|
      && Exact(id, PrepareAll(validator.adapters, DataRows(parser.sheet, |parser.sheet|)), Rows(id))
    }

    ghost predicate JudgedWith(id: ImportId, parser: XlsxParser, held: set<Code>)
      reads session
    {
      var rows := PrepareAll(validator.adapters, DataRows(parser.sheet, |parser.sheet|));
      && held <= OthersCodes(id, session.ever)
      && id in session.jobs
      && Tallied(session.jobs[id], Rows(id), Rowwise(id, rows, held, |rows|))
    }

    /** The reset transaction, journalled. */
    method Prepare(ghost c: Config, claim: ClaimedImport, ghost log: Log) returns (r: Attempt<()>, ghost log': Log)
      requires Wired() && Remembers(claim) && c.id == claim.importId
      requires Kept(c, log, See(In(Claimed(ClaimOf(claim))))) && Mine(log, claim)
      modifies session
      ensures Remembers(claim) && (r.Done? ==> InAccount(c, claim, []))
      ensures Continues(c, log, log', See(AfterPreparing(claim, r)))
    {
      hide Kept, Continues, InAccount, ShipmentsOutside, ErrorsOutside;
      ghost var v := See(In(Claimed(ClaimOf(claim))));
      r := PrepareForReprocessing(c, claim, Accident(AtReset));
      log' := PrepareLog(c, log, claim, v, r, See(AfterPreparing(claim, r)));
    }

    /** The completing transaction, journalled. */
    method Finish(ghost c: Config, claim: ClaimedImport, sums: Sums, ghost found: seq<set<Code>>, ghost log: Log)
      returns (r: Attempt<()>, ghost log': Log)
      requires Wired() && InAccount(c, claim, found) && |found| == |c.chunks| && sums == SumsOf(Replay(c, found))
      requires Kept(c, log, See(In(Running(ClaimOf(claim), |c.chunks|, sums)))) && Mine(log, claim)
      modifies session
      ensures r.Aborted? ==> Remembers(claim)
      ensures r.Done? ==>
                && c.id in session.jobs && session.jobs[c.id].status == J.COMPLETED
                && Tallied(session.jobs[c.id], Rows(c.id), Replay(c, found))
                && FoundElsewhere(c.id, found, session.ever)
      ensures Continues(c, log, log', See(AfterCompleting(claim, r)))
    {
      hide Kept, Continues, Replay, Tallied, FoundElsewhere, SumsOf, Rows;
      ghost var v := See(In(Running(ClaimOf(claim), |c.chunks|, sums)));
      r := Complete(c, claim, sums, Accident(AtCompletion), found);
      log' := CompleteLog(c, log, claim, v, r, See(AfterCompleting(claim, r)));
    }

    lemma AccountRemembers(c: Config, claim: ClaimedImport, found: seq<set<Code>>)
      requires InAccount(c, claim, found)
      ensures Remembers(claim) && c.id == claim.importId
    {
    }

    lemma NothingIsElsewhere(claim: ClaimedImport)
      ensures Elsewhere(claim, {})
    {
    }

    lemma ImportIsDone(c: Config, parser: XlsxParser, chunks: seq<seq<WorkbookRow>>, found: seq<set<Code>>)
      requires ConfigOf(c, validator.adapters, c.id, chunks) && |found| == |chunks|
      requires Flatten(chunks) == DataRows(parser.sheet, |parser.sheet|)
      requires c.id in session.jobs && session.jobs[c.id].status == J.COMPLETED
      requires Tallied(session.jobs[c.id], Rows(c.id), Replay(c, found)) && FoundElsewhere(c.id, found, session.ever)
      ensures Imported(c.id, parser)
    {
      hide Replay, Tallied, Exact, PrepareAll, DataRows, FoundElsewhere, OthersCodes, Rowwise, ConfigOf, Rows, Flatten;
      WorkbookIsExact(c, validator.adapters, parser.sheet, chunks, found, session.jobs[c.id], Rows(c.id));
      var held := WorkbookIsRowwise(c, validator.adapters, parser.sheet, chunks, found, session.jobs[c.id],
        Rows(c.id), session.ever);
      assert JudgedWith(c.id, parser, held);
    }

    lemma FileIsCut(c: Config, id: ImportId, parser: XlsxParser, chunks: seq<seq<WorkbookRow>>)
      requires WorksOn(c, validator.adapters, id, parser) && parser.Cuts(chunks)
      ensures c.id == id && c.chunks == PreparedChunks(validator.adapters, chunks)
      ensures ConfigOf(c, validator.adapters, c.id, chunks) && Flatten(chunks) == DataRows(parser.sheet, |parser.sheet|)
    {
      var same :| parser.Cuts(same) && ConfigOf(c, validator.adapters, id, same);
      OneWayToCut(chunks, same, if parser.chunkSize < 1 then 1 else parser.chunkSize);
    }

    lemma IdOf(c: Config, id: ImportId, parser: XlsxParser)
      requires WorksOn(c, validator.adapters, id, parser)
      ensures c.id == id
    {
    }

    /** What follows the reset: chunks and completion. */
    method ProcessPrepared(ghost c: Config, claim: ClaimedImport, ghost parser: XlsxParser,
                           chunks: seq<seq<WorkbookRow>>, ghost log: Log)
      returns (r: Attempt<()>, ghost log': Log)
      requires Wired() && InAccount(c, claim, []) && ConfigOf(c, validator.adapters, c.id, chunks)
      requires parser.Cuts(chunks)
      requires Kept(c, log, See(In(Running(ClaimOf(claim), 0, Sums(0, 0, 0))))) && Mine(log, claim)
      modifies session
      ensures r.Done? ==> Imported(claim.importId, parser)
      ensures r.Aborted? ==> Remembers(claim)
      ensures Continues(c, log, log', See(AfterCompleting(claim, r)))
    {
      hide Imported, Kept, Remembers, InAccount, Elsewhere, DataRows, Flatten;
      hide SumsOf, Replay, Tallied, FoundElsewhere, Rows;
      var processed, found, log'' := ProcessChunks(c, claim, chunks, log);
      NothingIsElsewhere(claim);
      log' := Interleave(c, claim, found, {}, log'', AfterProcessing(claim, |chunks|, processed));
      AccountRemembers(c, claim, found);
      if processed.Aborted? {
        return Aborted(processed.trouble), log';
      }
      r, log' := Finish(c, claim, processed.value, found, log');
      if r.Done? {
        ImportIsDone(c, parser, chunks, found);
      }
    }

    /** Everything a claimed run does before its handlers: reset, chunks, completion. */
    method ProcessClaimed(ghost c: Config, claim: ClaimedImport, parser: XlsxParser, ghost log: Log)
      returns (r: Attempt<()>, ghost log': Log)
      requires Wired() && Remembers(claim) && WorksOn(c, validator.adapters, claim.importId, parser)
      requires Kept(c, log, See(In(Claimed(ClaimOf(claim))))) && Mine(log, claim)
      modifies session
      ensures r.Done? ==> Imported(claim.importId, parser)
      ensures r.Aborted? ==> Remembers(claim)
      ensures Continues(c, log, log', See(AfterCompleting(claim, r)))
    {
      hide Imported, Kept, Wired, Remembers, InAccount, Elsewhere, WorksOn, ConfigOf, DataRows, Flatten;
      var chunks := parser.IterChunks();
      FileIsCut(c, claim.importId, parser, chunks);
      log' := InterleaveAfterClaim(c, claim, log, In(Claimed(ClaimOf(claim))));
      var prepared;
      prepared, log' := Prepare(c, claim, log');
      if prepared.Aborted? {
        log' := InterleaveAfterClaim(c, claim, log', AfterPreparing(claim, prepared));
        return prepared, log';
      }
      NothingIsElsewhere(claim);
      log' := Interleave(c, claim, [], {}, log', In(Running(ClaimOf(claim), 0, Sums(0, 0, 0))));
      r, log' := ProcessPrepared(c, claim, parser, chunks, log');
    }

    /**
     * A whole run. If it finishes, the import is completed, every non-blank row of the workbook is stored
     * as one shipment or has an error, and the counters count them, whatever others did meanwhile; a row is
     * a database duplicate only for a code that another import has stored.
     *
     * The journal leads from the delivery of the message to where the run leaves it: done with, still to be
     * claimed by a retry, or requeued. `c` is the import's configuration, as its row and its file have it.
     */
    method Run(id: ImportId, parser: XlsxParser, token: Token, ghost c: Config, ghost me: Me)
      returns (end: RunEnd, ghost log: Log, ghost place: Place)
      requires Wired() && session.Valid() && !session.OwnedBy(id, token)
      requires WorksOn(c, validator.adapters, id, parser)
      requires id in session.jobs ==> session.jobs[id].maxAttempts == c.maxAttempts
      requires me.token == token && me.world == session.world && me.name == workerId
      modifies session
      ensures log.me == me && log.start == old(See(In(Delivered))) && Kept(c, log, See(place))
      ensures LeavesMessage(end, place)
      ensures place == In(Delivered) ==>
                && See(place) == log.start
                && IntakeFault(c, me, log.start) == Some(if end.RetryRequested? then DatabaseFault else OtherFault)
      ensures place == Out(ClaimLost) ==>
                end == if old(Accident(AtHandler)).Some? then Escaped else StoppedAsStale
      ensures end.NotClaimed? ==>
                session.jobs == old(session.jobs) && session.shipments == old(session.shipments)
                    && session.errors == old(session.errors)
      ensures !end.NotClaimed? && !(id in old(session.jobs) && J.Claimable(old(session.jobs)[id])) ==>
                (end.RetryRequested? || end.Escaped?) && session.jobs == old(session.jobs)
      ensures end.Finished? ==> Imported(id, parser)
      ensures end.RetryRequested? ==>
                session.jobs == old(session.jobs) || (id in session.jobs && J.Claimable(session.jobs[id]))
      ensures end.EndedFailed? ==>
                && id in session.jobs && session.jobs[id].status == J.FAILED
                && session.jobs[id].failureReason == Some(end.reason)
      ensures Kind(session.world, id, token) && old(Takable(c, me, See(In(Delivered)))) ==> end.Finished?
    {
      hide Imported, Kept, WorksOn, NotTaken, Kind;
      IdOf(c, id, parser);
      ghost var v := See(In(Delivered));
      KindIntake(c, me, v);
      log := Begin(c, me, v);
      var claimed, failure :=
        ClaimImport(id, token, session.RowLock().Some?, Accident(AtIntake), Accident(AtClaimCommit));
      if claimed.None? && failure.None? {
        log := NotTakenLog(c, log, v);
        return NotClaimed, log, Out(NothingTaken);
      }
      if claimed.None? {
        return if failure.value.OperationalError? then RetryRequested else Escaped, log, In(Delivered);
      }
      var claim := claimed.value;
      if failure.Some? {
        log := CommitFailedLog(c, log, v);
        end := Handle(claim, failure.value, Accident(AtHandler));
        return end, log, Out(ClaimLost);
      }
      log := ClaimLog(c, log, claim, v, See(In(Claimed(ClaimOf(claim)))));
      end, log, place := RunClaimed(c, claim, parser, log);
    }

    /** What a run does with its claim. */
    method RunClaimed(ghost c: Config, claim: ClaimedImport, parser: XlsxParser, ghost log: Log)
      returns (end: RunEnd, ghost log': Log, ghost place: Place)
      requires Wired() && Remembers(claim) && claim.maxAttempts == c.maxAttempts
      requires WorksOn(c, validator.adapters, claim.importId, parser)
      requires Kept(c, log, See(In(Claimed(ClaimOf(claim))))) && Mine(log, claim)
      modifies session
      ensures Continues(c, log, log', See(place)) && place == AfterHandling(claim, end)
      ensures end.Finished? || end.StoppedAsStale? || end.EndedFailed? || end.RetryRequested? || end.Escaped?
      ensures end.Finished? ==> Imported(claim.importId, parser)
      ensures end.RetryRequested? ==>
                claim.importId in session.jobs && J.Claimable(session.jobs[claim.importId])
      ensures end.EndedFailed? ==>
                && claim.importId in session.jobs && session.jobs[claim.importId].status == J.FAILED
                && session.jobs[claim.importId].failureReason == Some(end.reason)
      ensures Kind(session.world, claim.importId, claim.processingToken) ==>
                old(session.OwnedBy(claim.importId, claim.processingToken)) ==> end.Finished?
    {
      hide Imported, Kept, Kind, WorksOn;
      IdOf(c, claim.importId, parser);
      ghost var start := See(In(Claimed(ClaimOf(claim))));
      var r;
      r, log' := ProcessClaimed(c, claim, parser, log);
      if r.Done? {
        return Finished, log', Out(Completed);
      }
      ghost var v := See(Aftermath(claim, r.trouble));
      end := Handle(claim, r.trouble, Accident(AtHandler));
      place := AfterHandling(claim, end);
      log' := HandleLog(c, log', claim, r.trouble, v, end, See(place));
      KindEnd(c, log, claim, start, log', end, See(place));
    }
  }

  predicate FoundElsewhere(id: ImportId, found: seq<set<Code>>, ever: set<Shipment>) {
    forall k :: 0 <= k < |found| ==> found[k] <= OthersCodes(id, ever)
  }

  lemma FoundGrow(id: ImportId, found: seq<set<Code>>, ever: set<Shipment>, ever': set<Shipment>)
    requires ever <= ever'
    ensures FoundElsewhere(id, found, ever) ==> FoundElsewhere(id, found, ever')
  {
    OthersGrow(id, ever, ever');
    hide OthersCodes;
  }

  lemma FoundSnoc(id: ImportId, found: seq<set<Code>>, more: set<Code>, ever: set<Shipment>)
    requires FoundElsewhere(id, found, ever) && more <= OthersCodes(id, ever)
    ensures FoundElsewhere(id, found + [more], ever)
  {
    hide OthersCodes;
  }

  lemma StoredAreEver(id: ImportId, rows: seq<Shipment>, ever: set<Shipment>)
    requires AsSet(rows) <= ever
    ensures OthersCodes(id, AsSet(rows)) <= OthersCodes(id, ever) && CodeSet(rows) <= CodesIn(ever)
  {
    OthersGrow(id, AsSet(rows), ever);
  }

  /** Stored rows that are in account have codes that were seen, so unseen codes are found only with others. */
  lemma UnseenAreOthers(c: Config, job: J.Job, rows: seq<Shipment>, errors: seq<ErrorRow>, found: seq<set<Code>>,
                        codes: set<Code>)
    requires |found| <= |c.chunks| && codes !! SeenBefore(c, |found|)
    requires Tallied(job, Stored(ShipmentsIn(c.id, rows), multiset(ErrorsIn(c.id, errors)), []), Replay(c, found))
    ensures codes * CodeSet(rows) <= OthersCodes(c.id, AsSet(rows))
  {
    ReplayCodes(c, found);
    CodeSetOfValid(Replay(c, found).valid);
    hide Replay, SeenBefore;
    StoredElsewhere(c.id, rows, codes);
  }

  lemma LookupFindsOthers(c: Config, job: J.Job, rows: seq<Shipment>, errors: seq<ErrorRow>, found: seq<set<Code>>,
                          more: set<Code>)
    requires |found| < |c.chunks|
    requires more == Found(c.chunks[|found|], SeenBefore(c, |found|), CodeSet(rows))
    ensures more <= CodeSet(rows)
    ensures Tallied(job, Stored(ShipmentsIn(c.id, rows), multiset(ErrorsIn(c.id, errors)), []), Replay(c, found)) ==>
              more <= OthersCodes(c.id, AsSet(rows))
  {
    hide Replay, SeenBefore, Tallied;
    if Tallied(job, Stored(ShipmentsIn(c.id, rows), multiset(ErrorsIn(c.id, errors)), []), Replay(c, found)) {
      UnseenAreOthers(c, job, rows, errors, found, CodesOf(c.chunks[|found|]) - SeenBefore(c, |found|));
    }
  }

  lemma RaceFindsOthers(c: Config, job: J.Job, rows: seq<Shipment>, errors: seq<ErrorRow>, found: seq<set<Code>>,
                        more: set<Code>, result: ChunkResult)
    requires |found| < |c.chunks|
    requires Stands(c.id, c.chunks[|found|], SeenBefore(c, |found|), more, result)
    ensures Tallied(job, Stored(ShipmentsIn(c.id, rows), multiset(ErrorsIn(c.id, errors)), []), Replay(c, found)) ==>
              ValidCodes(result.validRows) * CodeSet(rows) <= OthersCodes(c.id, AsSet(rows))
  {
    StandingCodes(c.id, c.chunks[|found|], SeenBefore(c, |found|), more, result);
    hide Replay, SeenBefore, Tallied, Stands;
    if Tallied(job, Stored(ShipmentsIn(c.id, rows), multiset(ErrorsIn(c.id, errors)), []), Replay(c, found)) {
      UnseenAreOthers(c, job, rows, errors, found, ValidCodes(result.validRows));
    }
  }

  lemma StandingCodes(id: ImportId, rows: seq<PreparedRow>, seen: set<Code>, found: set<Code>, r: ChunkResult)
    requires Stands(id, rows, seen, found, r)
    ensures ValidCodes(r.validRows) !! seen
  {
    JudgeCounts(id, rows, seen, found);
    assert r.validRows == Judge(id, rows, seen, found).valid;
    hide Judge;
  }

  lemma NoSums(c: Config)
    ensures SumsOf(Replay(c, [])) == Sums(0, 0, 0) && SeenBefore(c, 0) == {}
  {
  }

  lemma StandingCounts(id: ImportId, rows: seq<PreparedRow>, seen: set<Code>, found: set<Code>, r: ChunkResult)
    requires Stands(id, rows, seen, found, r)
    ensures SumsOf(Judge(id, rows, seen, found)) == Sums(r.totalRows, r.successCount, r.failedCount)
  {
    JudgeCounts(id, rows, seen, found);
    hide Judge;
  }

  lemma SumsThen(a: Verdicts, b: Verdicts)
    ensures SumsOf(a.Then(b)) == Sums(SumsOf(a).total + SumsOf(b).total, SumsOf(a).success + SumsOf(b).success,
                                      SumsOf(a).failed + SumsOf(b).failed)
  {
  }

  lemma SumsNext(c: Config, found: seq<set<Code>>, more: set<Code>, r: ChunkResult)
    requires |found| < |c.chunks|
    requires Stands(c.id, c.chunks[|found|], SeenBefore(c, |found|), more, r)
    ensures var sums := SumsOf(Replay(c, found));
            SumsOf(Replay(c, found + [more])) ==
              Sums(sums.total + r.totalRows, sums.success + r.successCount, sums.failed + r.failedCount)
  {
    hide *;
    ReplayNext(c, found, more);
    StandingCounts(c.id, c.chunks[|found|], SeenBefore(c, |found|), more, r);
    SumsThen(Replay(c, found), Judge(c.id, c.chunks[|found|], SeenBefore(c, |found|), more));
  }

  lemma JudgementStands(id: ImportId, rows: seq<PreparedRow>, seen: set<Code>, found: set<Code>)
    ensures Stands(id, rows, seen, found, ResultOf(|rows|, Judge(id, rows, seen, found)))
  {
  }

  lemma {:induction false} PreparedFlatten(adapters: Adapters, chunks: seq<seq<WorkbookRow>>)
    ensures Flatten(PreparedChunks(adapters, chunks)) == PrepareAll(adapters, Flatten(chunks))
  {
    hide PrepareRow;
    if chunks != [] {
      var n := |chunks| - 1;
      PreparedFlatten(adapters, chunks[..n]);
      assert PreparedChunks(adapters, chunks)[..n] == PreparedChunks(adapters, chunks[..n]);
      PrepareConcat(adapters, Flatten(chunks[..n]), chunks[n]);
    }
  }

  lemma PrepareKeepsRow(adapters: Adapters, row: WorkbookRow)
    ensures PrepareRow(adapters, row).row == row
  {
    hide ParsedFields, FieldIssues, RuleIssues, DateIssues, DraftOf;
  }

  lemma PreparedNumbers(adapters: Adapters, sheet: Sheet)
    ensures DistinctNumbers(PrepareAll(adapters, DataRows(sheet, |sheet|)))
  {
    DataRowsAreOrdered(sheet, |sheet|);
    RowsAreDistinct(adapters, DataRows(sheet, |sheet|));
  }

  lemma RowsAreDistinct(adapters: Adapters, rows: seq<WorkbookRow>)
    requires Ordered(rows)
    ensures DistinctNumbers(PrepareAll(adapters, rows))
  {
    hide *;
    forall i | 0 <= i < |rows| ensures PrepareAll(adapters, rows)[i].row == rows[i] {
      PrepareKeepsRow(adapters, rows[i]);
    }
    OrderedAreDistinct(PrepareAll(adapters, rows), rows);
  }

  lemma OrderedAreDistinct(prepared: seq<PreparedRow>, rows: seq<WorkbookRow>)
    requires |prepared| == |rows| && forall i :: 0 <= i < |rows| ==> prepared[i].row == rows[i]
    requires Ordered(rows)
    ensures DistinctNumbers(prepared)
  {
  }

  /** Tables that hold the judged chunks of a workbook hold exactly its data rows. */
  lemma WorkbookIsExact(c: Config, adapters: Adapters, sheet: Sheet, chunks: seq<seq<WorkbookRow>>,
                        found: seq<set<Code>>, job: J.Job, stored: Stored)
    requires Flatten(chunks) == DataRows(sheet, |sheet|) && |found| == |chunks| && ConfigOf(c, adapters, c.id, chunks)
    requires Tallied(job, stored, Replay(c, found))
    ensures Exact(c.id, PrepareAll(adapters, DataRows(sheet, |sheet|)), stored)
    ensures job.successCount == |stored.shipments| && job.failedCount == |RowNumbers(stored.errors)|
    ensures job.totalRows == |DataRows(sheet, |sheet|)|
  {
    hide *;
    FileRows(c, adapters, sheet, chunks);
    FileIsExact(c, found, job, stored);
  }

  /** Such tables hold the row-by-row verdicts of the workbook, for codes that were found elsewhere. */
  lemma WorkbookIsRowwise(c: Config, adapters: Adapters, sheet: Sheet, chunks: seq<seq<WorkbookRow>>,
                          found: seq<set<Code>>, job: J.Job, stored: Stored, ever: set<Shipment>)
    returns (held: set<Code>)
    requires Flatten(chunks) == DataRows(sheet, |sheet|) && |found| == |chunks| && ConfigOf(c, adapters, c.id, chunks)
    requires Tallied(job, stored, Replay(c, found)) && FoundElsewhere(c.id, found, ever)
    ensures held <= OthersCodes(c.id, ever)
    ensures var rows := PrepareAll(adapters, DataRows(sheet, |sheet|));
            Tallied(job, stored, Rowwise(c.id, rows, held, |rows|))
  {
    FileRows(c, adapters, sheet, chunks);
    held := FirstFound(c, found);
    FirstFoundBounds(c, found, OthersCodes(c.id, ever));
    assert c.chunks[..|found|] == c.chunks;
    hide Replay, FirstFound, OthersCodes, Rowwise, Tallied, PrepareAll, DataRows, DistinctNumbers, Flatten;
    ReplayIsRowwise(c, found);
  }

  lemma FileRows(c: Config, adapters: Adapters, sheet: Sheet, chunks: seq<seq<WorkbookRow>>)
    requires Flatten(chunks) == DataRows(sheet, |sheet|) && ConfigOf(c, adapters, c.id, chunks)
    ensures var rows := PrepareAll(adapters, DataRows(sheet, |sheet|));
            && |c.chunks| == |chunks|
            && Flatten(c.chunks) == rows && DistinctNumbers(rows) && |rows| == |DataRows(sheet, |sheet|)|
  {
    PreparedFlatten(adapters, chunks);
    PreparedNumbers(adapters, sheet);
    hide DistinctNumbers, PrepareAll, DataRows, PreparedChunks, Flatten;
  }

  /** The parser numbers the rows apart and yields no empty chunk; the rest is for the settings. */
  lemma WorkbookIsConfigured(c: Config, adapters: Adapters, id: ImportId, parser: XlsxParser)
    requires WorksOn(c, adapters, id, parser)
    requires 1 <= c.maxAttempts && 1 <= c.outboxMaxAttempts && |c.delays| == 4
    ensures Configured(c)
  {
    var chunks :| parser.Cuts(chunks) && ConfigOf(c, adapters, id, chunks);
    FileRows(c, adapters, parser.sheet, chunks);
    hide DataRows, PrepareAll, DistinctNumbers, Flatten;
    forall k | 0 <= k < |c.chunks| ensures c.chunks[k] != [] {
      assert |PreparedChunks(adapters, chunks)[k]| == |chunks[k]|;
    }
  }

  lemma FileIsExact(c: Config, found: seq<set<Code>>, job: J.Job, stored: Stored)
    requires |found| == |c.chunks| && DistinctNumbers(Flatten(c.chunks)) && Tallied(job, stored, Replay(c, found))
    ensures Exact(c.id, Flatten(c.chunks), stored)
    ensures job.successCount == |stored.shipments| && job.failedCount == |RowNumbers(stored.errors)|
    ensures job.totalRows == |Flatten(c.chunks)|
  {
    assert c.chunks[..|found|] == c.chunks;
    ReplayTotal(c, found);
    hide Exact, Replay, DistinctNumbers, Partitioned, Numbers, RowNumbers, ShipmentsOf;
    ReplayIsExact(c, found, stored);
    ReplayPartitioned(c, found);
    CountsOf(job, stored, Replay(c, found), Numbers(Flatten(c.chunks)));
  }

  lemma CountsOf(job: J.Job, stored: Stored, v: Verdicts, numbers: set<nat>)
    requires Tallied(job, stored, v) && Partitioned(v, numbers)
    ensures job.successCount == |stored.shipments| && job.failedCount == |RowNumbers(stored.errors)|
  {
    RowNumbersOfErrors(v.errors);
  }

  lemma {:induction false} ReplayTotal(c: Config, found: seq<set<Code>>)
    requires |found| <= |c.chunks|
    ensures |Replay(c, found).valid| + Replay(c, found).failed == |Flatten(c.chunks[..|found|])|
  {
    if found != [] {
      var k := |found| - 1;
      ReplayTotal(c, found[..k]);
      JudgeCounts(c.id, c.chunks[k], SeenBefore(c, k), found[k]);
      assert c.chunks[..k + 1][..k] == c.chunks[..k];
    }
  }

  /** After the deletion nothing of the import is stored, and its counters are zero. */
  lemma NothingStored(c: Config, job: J.Job, rows: seq<Shipment>, errors: seq<ErrorRow>)
    ensures Tallied(J.Reset(job), Stored(ShipmentsIn(c.id, ShipmentsOutside(c.id, rows)),
                                         multiset(ErrorsIn(c.id, ErrorsOutside(c.id, errors))), []), Replay(c, []))
  {
    DeletedShipments(c.id, rows, c.id);
    DeletedErrors(c.id, errors, c.id);
  }

  lemma PersistedAccount(
    c: Config, job: J.Job, rows: seq<Shipment>, errors: seq<ErrorRow>,
    found: seq<set<Code>>, more: set<Code>, result: ChunkResult, now: nat)
    requires |found| < |c.chunks|
    requires Tallied(job, Stored(ShipmentsIn(c.id, rows), multiset(ErrorsIn(c.id, errors)), []), Replay(c, found))
    requires Stands(c.id, c.chunks[|found|], SeenBefore(c, |found|), more, result)
    ensures Tallied(J.Heartbeat(J.RecordChunk(job, result.totalRows, result.successCount, result.failedCount), now),
                    Stored(ShipmentsIn(c.id, rows + result.shipments),
                           multiset(ErrorsIn(c.id, errors + AllNormalised(result.errors))), []),
                    Replay(c, found + [more]))
  {
    var stored := Stored(ShipmentsIn(c.id, rows), multiset(ErrorsIn(c.id, errors)), found);
    InsertedTallied(c, job, stored, more, result, now);
    RowsInserted(c.id, c.chunks[|found|], SeenBefore(c, |found|), more, result, rows, errors);
    hide Judge, Replay, Stands, SeenBefore, ShipmentsIn, ErrorsIn, AllNormalised;
  }
}
