/** How a worker's run ends, where each of its transactions leaves the worker, and what it writes in the journal. */
module RunJournal {
  import opened Domain
  import opened Verdicts
  import opened Database
  import opened Repositories
  import opened RowValidation
  import opened Lifecycle
  import opened Refinement
  import opened Journal
  import opened Undisturbed
  import J = ImportJobs

  datatype Trouble = StaleWorker | WorkbookStructure(message: string) | OperationalError | Integrity | OtherError

  datatype Attempt<+T> = Done(value: T) | Aborted(trouble: Trouble)

  /** How a run ends for its caller. */
  datatype RunEnd = NotClaimed | Finished | StoppedAsStale | EndedFailed(reason: string) | RetryRequested | Escaped

  /** A statement or a commit may fail at any time, and then its transaction leaves nothing. */
  function AccidentAt(world: World, turn: nat, point: Point): Option<Trouble> {
    match world.fault(turn, point)
    case None => None
    case Some(DatabaseFault) => Some(OperationalError)
    case Some(OtherFault) => Some(OtherError)
  }

  /** The reason with which a trouble other than the database's fails the import. */
  function ReasonFor(trouble: Trouble): string {
    if trouble.WorkbookStructure? then if trouble.message != "" then trouble.message else UNREADABLE
    else J.PROCESSING_FAILED
  }

  /** How a run with a claim ends, given the trouble it met and whether it still owns the import. */
  function EndOf(claim: ClaimedImport, trouble: Trouble, owned: bool, accident: Option<Trouble>): RunEnd {
    if trouble.StaleWorker? then StoppedAsStale
    else if accident.Some? then Escaped
    else if !owned then StoppedAsStale
    else if !trouble.OperationalError? then EndedFailed(ReasonFor(trouble))
    else if claim.attemptCount >= claim.maxAttempts then EndedFailed(J.MAX_ATTEMPTS)
    else RetryRequested
  }

  // --- Where a transaction leaves the worker ----------------------------------------------------

  function ClaimOf(claim: ClaimedImport): Claim {
    Claim(claim.processingToken, claim.attemptCount)
  }

  /** Where a trouble leaves the worker: a stale one is done, another has a handler to go to. */
  function Aftermath(claim: ClaimedImport, trouble: Trouble): Place {
    if trouble.StaleWorker? then Out(Replaced)
    else if trouble.OperationalError? then In(Troubled(ClaimOf(claim)))
    else In(Failing(ClaimOf(claim), ReasonFor(trouble)))
  }

  /** Where the commit of a chunk leaves the worker. */
  function AfterPersisting(claim: ClaimedImport, done: nat, sums: Sums, found: set<Code>, result: ChunkResult,
                           r: Attempt<()>): Place {
    match r
    case Done(_) => In(Running(ClaimOf(claim), done + 1, Added(sums, result)))
    case Aborted(Integrity) => In(Conflicted(ClaimOf(claim), done, sums, found, result))
    case Aborted(trouble) => Aftermath(claim, trouble)
  }

  function AfterStoring(claim: ClaimedImport, done: nat, sums: Sums, r: Attempt<ChunkResult>): Place {
    if r.Done? then In(Running(ClaimOf(claim), done + 1, Added(sums, r.value))) else Aftermath(claim, r.trouble)
  }

  function AfterChunk(claim: ClaimedImport, done: nat, sums: Sums, r: Attempt<Option<ChunkResult>>): Place {
    match r
    case Done(Some(result)) => In(Running(ClaimOf(claim), done + 1, Added(sums, result)))
    case Done(None) => In(Running(ClaimOf(claim), done, sums))
    case Aborted(trouble) => Aftermath(claim, trouble)
  }

  /** How a round of the race ends: with the chunk stored, with another collision, or with a trouble. */
  datatype Round = Persisted(result: ChunkResult) | Collided(result: ChunkResult) | Ended(trouble: Trouble)

  function AfterRace(claim: ClaimedImport, done: nat, sums: Sums, found: set<Code>, r: Round): Place {
    match r
    case Persisted(result) => In(Running(ClaimOf(claim), done + 1, Added(sums, result)))
    case Collided(result) => In(Conflicted(ClaimOf(claim), done, sums, found, result))
    case Ended(trouble) => Aftermath(claim, trouble)
  }

  function AfterPreparing(claim: ClaimedImport, r: Attempt<()>): Place {
    if r.Done? then In(Running(ClaimOf(claim), 0, Sums(0, 0, 0))) else Aftermath(claim, r.trouble)
  }

  function AfterProcessing(claim: ClaimedImport, chunks: nat, r: Attempt<Sums>): Place {
    if r.Done? then In(Running(ClaimOf(claim), chunks, r.value)) else Aftermath(claim, r.trouble)
  }

  function AfterCompleting(claim: ClaimedImport, r: Attempt<()>): Place {
    if r.Done? then Out(Completed) else Aftermath(claim, r.trouble)
  }

  function AfterHandling(claim: ClaimedImport, end: RunEnd): Place {
    match end
    case RetryRequested => In(Requeued(ClaimOf(claim)))
    case EndedFailed(reason) => Out(MarkedFailed(reason))
    case Finished => Out(Completed)
    case StoppedAsStale => Out(Replaced)
    case _ => Out(HandlerRaised)
  }

  // --- What a transaction writes ----------------------------------------------------------------

  predicate SameTables(v: View, v': View) {
    v'.jobs == v.jobs && v'.shipments == v.shipments && v'.errors == v.errors && v'.turn == v.turn
  }

  lemma ChunkLog(c: Config, log: Log, v: View, x: ChunkAction) returns (log': Log)
    requires Kept(c, log, v) && v.place.In? && ChunkReady(c, log.me, v, x)
    ensures Continues(c, log, log', AfterChunkStep(c, log.me, v, x))
  {
    hide Kept, Continues, ChunkReady, AfterChunkStep;
    log' := Keep(c, log, v, Chunk(log.me.w, x));
  }

  lemma EndingLog(c: Config, log: Log, v: View, x: EndingAction) returns (log': Log)
    requires Kept(c, log, v) && v.place.In? && EndingReady(c, log.me, v, x)
    ensures Continues(c, log, log', AfterEnding(c, log.me, v, x))
  {
    hide Kept, Continues, EndingReady, AfterEnding;
    log' := Keep(c, log, v, Ending(log.me.w, x));
  }

  lemma IntakeLog(c: Config, log: Log, v: View, x: IntakeAction) returns (log': Log)
    requires Kept(c, log, v) && v.place == In(Delivered) && IntakeReady(c, log.me, v, x)
    ensures Continues(c, log, log', AfterIntake(c, log.me, v, x))
  {
    hide Kept, Continues, IntakeReady, AfterIntake;
    log' := Keep(c, log, v, Intake(log.me.w, x));
  }

  /** The worker met this trouble where it stands: a fault of the world, or a file that cannot be read on. */
  predicate Met(c: Config, me: Me, v: View, trouble: Trouble)
    requires v.place.In?
  {
    match trouble
    case OperationalError => Meets(c, me, v, DatabaseFault)
    case OtherError => Meets(c, me, v, OtherFault)
    case WorkbookStructure(message) => Unreadable(c, me, v) && message == me.world.unreadable(v.turn).value
    case _ => false
  }

  /** A trouble that rolls a transaction back takes the worker to its handler. */
  lemma TroubleLog(c: Config, log: Log, claim: ClaimedImport, v: View, trouble: Trouble) returns (log': Log)
    requires Kept(c, log, v) && v.place.In? && Met(c, log.me, v, trouble)
    requires Working(v.place.phase) && v.place.phase.claim == ClaimOf(claim)
    ensures Continues(c, log, log', v.(place := Aftermath(claim, trouble)))
  {
    hide Kept, Continues, Meets, Unreadable;
    log' := EndingLog(c, log, v,
      if trouble.OperationalError? then DatabaseFails else ProcessingFails(ReasonFor(trouble)));
  }

  lemma LookUpLog(c: Config, log: Log, v: View, found: set<Code>, r: ChunkResult) returns (log': Log)
    requires Kept(c, log, v) && v.place.In? && v.place.phase.Running? && v.place.phase.done < |c.chunks|
    requires Calm(log.me, v, AtLookup)
    requires var rows, seen := c.chunks[v.place.phase.done], SeenBefore(c, v.place.phase.done);
             found == Found(rows, seen, CodeSet(v.shipments)) && r == ResultOf(|rows|, Judge(c.id, rows, seen, found))
    ensures var phase := v.place.phase;
            Continues(c, log, log', v.(place := In(LookedUp(phase.claim, phase.done, phase.sums, found, r))))
  {
    hide Kept, Continues, Others, Judge, Found, SeenBefore, CodeSet, ResultOf;
    log' := ChunkLog(c, log, v, LookUpChunk(Others(c, v.shipments)));
  }

  /** Where a round of the race leaves the worker. */
  function AfterRound(phase: Phase, found: set<Code>, r: ChunkResult): Phase
    requires phase.Conflicted?
  {
    if r.successCount == phase.result.successCount then Failing(phase.claim, J.PROCESSING_FAILED)
    else LookedUp(phase.claim, phase.done, phase.sums, found, r)
  }

  lemma RaceLog(c: Config, log: Log, v: View, r: ChunkResult) returns (log': Log)
    requires Kept(c, log, v) && Standing(c, v) && v.place.phase.Conflicted? && Calm(log.me, v, AtLookup)
    requires r == Reclassified(c.id, v.place.phase.result, CodeSet(v.shipments))
    ensures var phase := v.place.phase;
            var found := phase.found + ValidCodes(phase.result.validRows) * CodeSet(v.shipments);
            Continues(c, log, log', v.(place := In(AfterRound(phase, found, r))))
  {
    hide Kept, Continues, Others, Reclassified, ValidCodes, CodeSet, Stands, SeenBefore;
    log' := ChunkLog(c, log, v, Reclassify(Others(c, v.shipments)));
  }

  lemma PersistLog(c: Config, log: Log, claim: ClaimedImport, v: View, r: Attempt<()>, v': View) returns (log': Log)
    requires Kept(c, log, v) && Standing(c, v) && v.place.phase.LookedUp? && v.place.phase.claim == ClaimOf(claim)
    requires var accident := AccidentAt(log.me.world, v.turn, AtCommit);
             r == if accident.Some? then Aborted(accident.value)
                  else if Colliding(log.me, v) then Aborted(Integrity)
                  else if OwnedIn(c, v, ClaimOf(claim)) then Done(()) else Aborted(StaleWorker)
    requires if r.Done? then v' == WithChunk(c, v, log.me.world.clock(v.turn))
             else SameTables(v, v') && v'.place == AfterPersisting(claim, v.place.phase.done, v.place.phase.sums,
                                                      v.place.phase.found, v.place.phase.result, r)
    ensures Continues(c, log, log', v')
  {
    hide Kept, Continues, WithChunk, Others, OwnedIn, Colliding, ReasonFor, Stands, SeenBefore;
    if !Calm(log.me, v, AtCommit) {
      log' := TroubleLog(c, log, claim, v, r.trouble);
    } else if Colliding(log.me, v) {
      log' := ChunkLog(c, log, v, IntegrityFails);
    } else {
      log' := ChunkLog(c, log, v, PersistChunk(Others(c, v.shipments), log.me.world.clock(v.turn)));
    }
  }

  lemma Begin(c: Config, me: Me, v: View) returns (log: Log)
    ensures log == Log(me, v, []) && Kept(c, log, v)
  {
    log := Log(me, v, []);
  }

  /** The intake of a run that took nothing. */
  function NotTaken(holder: Option<Holder>): IntakeAction {
    if holder.Some? then SkipOf(holder.value) else FindNothing
  }

  lemma NotTakenLog(c: Config, log: Log, v: View) returns (log': Log)
    requires Kept(c, log, v) && v.place == In(Delivered)
    requires IntakeFault(c, log.me, v).None? && !Takable(c, log.me, v)
    ensures Continues(c, log, log', v.(place := Out(NothingTaken)))
  {
    hide Kept, Continues, IntakeFault, Takable;
    log' := IntakeLog(c, log, v, NotTaken(log.me.world.lock(v.turn)));
  }

  lemma CommitFailedLog(c: Config, log: Log, v: View) returns (log': Log)
    requires Kept(c, log, v) && v.place == In(Delivered)
    requires Calm(log.me, v, AtIntake) && Takable(c, log.me, v) && !Calm(log.me, v, AtClaimCommit)
    ensures Continues(c, log, log', v.(place := Out(ClaimLost)))
  {
    hide Kept, Continues;
    log' := IntakeLog(c, log, v, ClaimCommitFails);
  }

  lemma ClaimLog(c: Config, log: Log, claim: ClaimedImport, v: View, v': View) returns (log': Log)
    requires Kept(c, log, v) && v.place == In(Delivered) && claim.processingToken == log.me.token
    requires Calm(log.me, v, AtIntake) && Takable(c, log.me, v) && Calm(log.me, v, AtClaimCommit)
    requires claim.attemptCount == v.jobs[c.id].attemptCount + 1
    requires v'.jobs == v.jobs[c.id := J.Claim(v.jobs[c.id], log.me.token, log.me.name, log.me.world.clock(v.turn))]
    requires v'.shipments == v.shipments && v'.errors == v.errors && v'.turn == v.turn
    requires v'.place == In(Claimed(ClaimOf(claim)))
    ensures Continues(c, log, log', v')
  {
    hide Kept, Continues;
    log' := IntakeLog(c, log, v, ClaimImport(log.me.token, log.me.name, log.me.world.clock(v.turn)));
  }

  /** `MarkFailed` of a handler. */
  lemma FailLog(c: Config, log: Log, claim: Claim, reason: string, v: View, v': View) returns (log': Log)
    requires Kept(c, log, v) && v.place == In(Failing(claim, reason)) && c.id in v.jobs && Calm(log.me, v, AtHandler)
    requires v'.jobs == if OwnedIn(c, v, claim)
                        then v.jobs[c.id := J.Fail(v.jobs[c.id], reason, log.me.world.clock(v.turn))] else v.jobs
    requires v'.shipments == v.shipments && v'.errors == v.errors && v'.turn == v.turn
    requires v'.place == Out(if OwnedIn(c, v, claim) then MarkedFailed(reason) else Replaced)
    ensures Continues(c, log, log', v')
  {
    hide Kept, Continues, OwnedIn;
    log' := EndingLog(c, log, v, MarkFailed(log.me.world.clock(v.turn)));
  }

  /** What the handlers make of the tables. */
  predicate Handled(c: Config, world: World, v: View, end: RunEnd, v': View)
    requires c.id in v.jobs
  {
    && v'.shipments == v.shipments && v'.errors == v.errors && v'.turn == v.turn
    && v'.jobs == match end
                  case RetryRequested => v.jobs[c.id := J.Requeue(v.jobs[c.id], J.TEMPORARY_ERROR)]
                  case EndedFailed(reason) => v.jobs[c.id := J.Fail(v.jobs[c.id], reason, world.clock(v.turn))]
                  case _ => v.jobs
  }

  lemma HandleLog(c: Config, log: Log, claim: ClaimedImport, trouble: Trouble, v: View, end: RunEnd, v': View)
    returns (log': Log)
    requires Kept(c, log, v) && c.id in v.jobs && claim.maxAttempts == c.maxAttempts
    requires v.place == Aftermath(claim, trouble) && v'.place == AfterHandling(claim, end)
    requires end == EndOf(claim, trouble, OwnedIn(c, v, ClaimOf(claim)), AccidentAt(log.me.world, v.turn, AtHandler))
    requires Handled(c, log.me.world, v, end, v')
    ensures Continues(c, log, log', v')
  {
    hide Kept, ReasonFor;
    var k := ClaimOf(claim);
    if trouble.StaleWorker? {
      log' := log;
    } else if !Calm(log.me, v, AtHandler) {
      log' := EndingLog(c, log, v, HandlerRaises);
    } else if !trouble.OperationalError? {
      log' := FailLog(c, log, k, ReasonFor(trouble), v, v');
    } else if claim.attemptCount >= claim.maxAttempts {
      log' := EndingLog(c, log, v, HandleTrouble);
      log' := FailLog(c, log', k, J.MAX_ATTEMPTS, v.(place := In(Failing(k, J.MAX_ATTEMPTS))), v');
    } else {
      log' := EndingLog(c, log, v, HandleTrouble);
    }
  }

  /**
   * Where a run leaves its message, by how it ends. It is done with it, for the reason that the end names, or asks
   * for a retry, before its claim or after the requeue.
   */
  predicate LeavesMessage(end: RunEnd, place: Place) {
    match end
    case NotClaimed => place == Out(NothingTaken)
    case Finished => place == Out(Completed)
    case StoppedAsStale => place == Out(Replaced) || place == Out(ClaimLost)
    case EndedFailed(reason) => place == Out(MarkedFailed(reason))
    case RetryRequested => place.In? && (place.phase.Delivered? || place.phase.Requeued?)
    case Escaped => place == In(Delivered) || place == Out(HandlerRaised) || place == Out(ClaimLost)
  }

  /** In a kind world a run that claims can end in nothing but completion. */
  lemma KindEnd(c: Config, log: Log, claim: ClaimedImport, v: View, log': Log, end: RunEnd, v': View)
    requires Kept(c, log, v) && v.place == In(Claimed(ClaimOf(claim))) && log.me.token == claim.processingToken
    requires Continues(c, log, log', v') && v'.place == AfterHandling(claim, end)
    ensures Kind(log.me.world, c.id, log.me.token) && OwnedIn(c, v, ClaimOf(claim)) ==> end.Finished?
  {
    hide Kept, Continues, Kind;
    if Kind(log.me.world, c.id, log.me.token) && OwnedIn(c, v, ClaimOf(claim)) {
      KindWorldCompletes(c, log, v, log', v');
    }
  }

  /** No fault strikes its claim either. */
  lemma KindIntake(c: Config, me: Me, v: View)
    ensures Kind(me.world, c.id, me.token) ==> Calm(me, v, AtIntake) && Calm(me, v, AtClaimCommit)
  {
    if Kind(me.world, c.id, me.token) {
      NoFaults(me, v);
    }
  }

  lemma PrepareLog(c: Config, log: Log, claim: ClaimedImport, v: View, r: Attempt<()>, v': View) returns (log': Log)
    requires Kept(c, log, v) && v.place == In(Claimed(ClaimOf(claim))) && c.id in v.jobs
    requires var accident := AccidentAt(log.me.world, v.turn, AtReset);
             r == if accident.Some? then Aborted(accident.value)
                  else if OwnedIn(c, v, ClaimOf(claim)) then Done(()) else Aborted(StaleWorker)
    requires if r.Done? then v' == WithReset(c, v, v'.place) else SameTables(v, v')
    requires v'.place == AfterPreparing(claim, r)
    ensures Continues(c, log, log', v')
  {
    hide Kept, Continues, OwnedIn, ReasonFor, WithReset;
    if Calm(log.me, v, AtReset) {
      log' := ChunkLog(c, log, v, ResetRows);
    } else {
      log' := TroubleLog(c, log, claim, v, r.trouble);
    }
  }

  lemma CompleteLog(c: Config, log: Log, claim: ClaimedImport, v: View, r: Attempt<()>, v': View) returns (log': Log)
    requires Kept(c, log, v) && c.id in v.jobs
    requires v.place.In? && v.place.phase.Running? && v.place.phase.claim == ClaimOf(claim)
    requires v.place.phase.done >= |c.chunks|
    requires var accident := AccidentAt(log.me.world, v.turn, AtCompletion);
             r == if accident.Some? then Aborted(accident.value)
                  else if OwnedIn(c, v, ClaimOf(claim)) then Done(()) else Aborted(StaleWorker)
    requires v'.shipments == v.shipments && v'.errors == v.errors && v'.turn == v.turn
    requires var sums, now := v.place.phase.sums, log.me.world.clock(v.turn);
             v'.jobs == if r.Done?
                        then v.jobs[c.id := J.Complete(v.jobs[c.id], sums.total, sums.success, sums.failed, now)]
                        else v.jobs
    requires v'.place == AfterCompleting(claim, r)
    ensures Continues(c, log, log', v')
  {
    hide Kept, Continues, OwnedIn, ReasonFor;
    if Calm(log.me, v, AtCompletion) {
      log' := ChunkLog(c, log, v, CompleteImport(log.me.world.clock(v.turn)));
    } else {
      log' := TroubleLog(c, log, claim, v, r.trouble);
    }
  }
}
