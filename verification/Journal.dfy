/**
 * The journal of one delivery of a message: what the worker's transactions made of the tables, and the turns of
 * the others in between. If the others keep to the lifecycle of the import, the whole delivery is a run of it.
 */
module Journal {
  import opened Domain
  import opened Verdicts
  import opened Database
  import opened Repositories
  import opened RowValidation
  import opened Lifecycle
  import opened LifecycleInvariant
  import opened Accounting
  import opened LifecycleRuns
  import opened Outcomes
  import opened Refinement
  import J = ImportJobs
  import O = Outbox

  /** How a worker came to be done with its message. */
  datatype Exit =
    | NothingTaken
    | ClaimLost
    | IntakeFailed
    | Replaced
    | Completed
    | MarkedFailed(reason: string)
    | HandlerRaised
    | MessageResent
    | MessageRejected
    | RetriesUsedUp

  /** Where the worker stands with its message. */
  datatype Place = In(phase: Phase) | Out(how: Exit)

  /** The tables at one moment, the turn of the others that comes next, and where the worker stands. */
  datatype View = View(
    jobs: map<ImportId, J.Job>,
    shipments: seq<Shipment>,
    errors: seq<ErrorRow>,
    turn: nat,
    place: Place)

  /** A transaction of the worker, or, without an action, a turn of the others. */
  datatype Entry = Entry(before: View, action: Option<Action>, after: View)

  /** The worker, its name, the message it holds, the token under which it will claim, and its world. */
  datatype Me = Me(w: WorkerId, name: string, message: Message, token: Token, world: World)

  predicate Shown(c: Config, s: State, v: View) {
    c.id in v.jobs && Shows(c, s, v.jobs[c.id], v.shipments, v.errors)
  }

  predicate At(me: Me, s: State, place: Place) {
    place.In? ==> me.w in s.workers && s.workers[me.w] == Worker(me.message, place.phase)
  }

  /** Before the claim, the token is new. */
  predicate NewToken(me: Me, s: State, place: Place) {
    place == In(Delivered) ==> me.token !in s.tokens
  }

  /** The view is one of this state of the protocol. */
  predicate Fits(c: Config, me: Me, s: State, v: View) {
    Shown(c, s, v) && At(me, s, v.place) && NewToken(me, s, v.place)
  }

  predicate OwnedIn(c: Config, v: View, claim: Claim) {
    c.id in v.jobs && J.Owned(v.jobs[c.id], claim.token)
  }

  /** The intake of a claim that found the row locked. */
  function SkipOf(holder: Holder): IntakeAction {
    match holder
    case HeldByWorker(w) => SkipLockedRow(w)
    case HeldByPublisher(token) => SkipRowLockedByPublisher(token)
  }

  /** The claim found the row locked; whether it was is for the others to say. */
  predicate Skips(a: Action) {
    a.Intake? && (a.intake.SkipLockedRow? || a.intake.SkipRowLockedByPublisher?)
  }

  /** The action is possible and leads to a state of the view; a worker that is done is gone. */
  predicate Lands(c: Config, me: Me, s: State, a: Action, v': View) {
    && Enabled(c, s, a) && Shown(c, Next(c, s, a), v') && At(me, Next(c, s, a), v'.place)
    && (v'.place.Out? ==> me.w !in Next(c, s, a).workers)
  }

  /** It is so in every state that the first view fits. */
  ghost predicate Takes(c: Config, me: Me, v: View, a: Action, v': View) {
    forall s | Fits(c, me, s, v) && (Skips(a) ==> Enabled(c, s, a)) :: Lands(c, me, s, a, v')
  }

  function IntakeExit(c: Config, me: Me, x: IntakeAction): Exit {
    match x
    case ClaimCommitFails => ClaimLost
    case DatabaseErrorBeforeClaim => if MayRetry(c, me.message) then MessageResent else RetriesUsedUp
    case RetryBeforeClaimRejected => MessageRejected
    case OtherErrorBeforeClaim => IntakeFailed
    case _ => NothingTaken
  }

  function EndingExit(c: Config, me: Me, v: View, x: EndingAction): Exit
    requires v.place.In?
  {
    match x
    case MarkFailed(_) =>
      if v.place.phase.Failing? && OwnedIn(c, v, v.place.phase.claim) then MarkedFailed(v.place.phase.reason)
      else Replaced
    case HandlerRaises => HandlerRaised
    case Resend => if MayRetry(c, me.message) then MessageResent else RetriesUsedUp
    case ResendRejected => MessageRejected
    case _ => Replaced
  }

  /** What it means for the worker to be done by this action: completion and failure need the row to be owned. */
  function ExitBy(c: Config, me: Me, v: View, a: Action): Exit
    requires v.place.In? && TakenBy(a, me.w)
  {
    match a
    case Intake(_, x) => IntakeExit(c, me, x)
    case Chunk(_, x) =>
      if x.CompleteImport? && v.place.phase.Running? && OwnedIn(c, v, v.place.phase.claim) then Completed else Replaced
    case Ending(_, x) => EndingExit(c, me, v, x)
  }

  /** The worker comes to stand there by this action; whoever is replaced does not own the row. */
  predicate Earned(c: Config, me: Me, v: View, a: Action, place: Place)
    requires v.place.In? && TakenBy(a, me.w)
  {
    match place
    case Out(how) =>
      how == ExitBy(c, me, v, a)
      && (how.Replaced? ==> !v.place.phase.Delivered? && !OwnedIn(c, v, v.place.phase.claim))
    case In(Delivered) => false
    case In(Requeued(claim)) =>
      a == Ending(me.w, HandleTrouble) && v.place == In(Troubled(claim)) && OwnedIn(c, v, claim)
    case _ => true
  }

  /** The view after the next turn of the others. */
  function AfterTurn(c: Config, me: Me, v: View): View {
    var t := Turn(me.world, c.id, me.token, v.turn, Tables(v.jobs, v.shipments, v.errors));
    View(t.jobs, t.shipments, t.errors, v.turn + 1, v.place)
  }

  // --- What a worker does next ------------------------------------------------------------------

  /** No fault strikes the worker at this point of its run. */
  predicate Calm(me: Me, v: View, point: Point) {
    me.world.fault(v.turn, point).None?
  }

  predicate Struck(me: Me, v: View, point: Point, fault: Fault) {
    me.world.fault(v.turn, point) == Some(fault)
  }

  /** The claim finds a row to take. */
  predicate Takable(c: Config, me: Me, v: View) {
    me.world.lock(v.turn).None? && c.id in v.jobs && J.Claimable(v.jobs[c.id])
  }

  /** The fault that ends a run without a claim: in the claim itself, or in the commit of one that took nothing. */
  function IntakeFault(c: Config, me: Me, v: View): Option<Fault> {
    if !Calm(me, v, AtIntake) then me.world.fault(v.turn, AtIntake)
    else if Takable(c, me, v) then None
    else me.world.fault(v.turn, AtClaimCommit)
  }

  /** Celery may send the message again, and the broker does not take it. */
  predicate Unsendable(c: Config, me: Me, v: View) {
    MayRetry(c, me.message) && me.world.unsent(v.turn)
  }

  predicate IntakeReady(c: Config, me: Me, v: View, x: IntakeAction) {
    match x
    case ClaimImport(token, name, now) =>
      && Calm(me, v, AtIntake) && Takable(c, me, v) && Calm(me, v, AtClaimCommit)
      && token == me.token && name == me.name && now == me.world.clock(v.turn)
    case ClaimCommitFails => Calm(me, v, AtIntake) && Takable(c, me, v) && !Calm(me, v, AtClaimCommit)
    case DatabaseErrorBeforeClaim => IntakeFault(c, me, v) == Some(DatabaseFault) && !Unsendable(c, me, v)
    case RetryBeforeClaimRejected => IntakeFault(c, me, v) == Some(DatabaseFault) && Unsendable(c, me, v)
    case OtherErrorBeforeClaim => IntakeFault(c, me, v) == Some(OtherFault)
    case FindNothing => IntakeFault(c, me, v).None? && !Takable(c, me, v) && me.world.lock(v.turn).None?
    case _ =>
      && IntakeFault(c, me, v).None? && me.world.lock(v.turn).Some?
      && x == SkipOf(me.world.lock(v.turn).value)
  }

  /** The worker's result stands for its chunk. */
  predicate Standing(c: Config, v: View) {
    && v.place.In? && (v.place.phase.LookedUp? || v.place.phase.Conflicted?) && c.id in v.jobs
    && var phase := v.place.phase;
    && phase.done < |c.chunks|
    && Stands(c.id, c.chunks[phase.done], SeenBefore(c, phase.done), phase.found, phase.result)
  }

  /** The insertion of the worker's result fails. */
  predicate Colliding(me: Me, v: View)
    requires v.place.In? && v.place.phase.LookedUp?
  {
    Collides(me.world, v.turn, v.place.phase.result.shipments, v.shipments)
  }

  predicate ChunkReady(c: Config, me: Me, v: View, x: ChunkAction)
    requires v.place.In?
  {
    var phase := v.place.phase;
    match x
    case ResetRows => phase.Claimed? && Calm(me, v, AtReset)
    case LookUpChunk(others) =>
      phase.Running? && phase.done < |c.chunks| && others == Others(c, v.shipments) && Calm(me, v, AtLookup)
    case PersistChunk(others, now) =>
      && phase.LookedUp? && Standing(c, v) && !Colliding(me, v) && Calm(me, v, AtCommit)
      && others == Others(c, v.shipments) && now == me.world.clock(v.turn)
    case IntegrityFails => phase.LookedUp? && Standing(c, v) && Colliding(me, v) && Calm(me, v, AtCommit)
    case Reclassify(others) =>
      phase.Conflicted? && Standing(c, v) && others == Others(c, v.shipments) && Calm(me, v, AtLookup)
    case CompleteImport(now) =>
      phase.Running? && phase.done >= |c.chunks| && now == me.world.clock(v.turn) && Calm(me, v, AtCompletion)
    case Stop =>
      && ((phase.Running? && Calm(me, v, AtChunk)) || (phase.Conflicted? && Calm(me, v, AtRound)))
      && !OwnedIn(c, v, phase.claim)
  }

  /** The fault strikes where the worker stands. */
  predicate Meets(c: Config, me: Me, v: View, fault: Fault)
    requires v.place.In?
  {
    match v.place.phase
    case Claimed(_) => Struck(me, v, AtReset, fault)
    case Running(_, done, _) =>
      || Struck(me, v, AtChunk, fault)
      || (if done < |c.chunks| then Struck(me, v, AtLookup, fault) else Struck(me, v, AtCompletion, fault))
    case LookedUp(_, _, _, _, _) => Struck(me, v, AtCommit, fault)
    case Conflicted(_, _, _, _, _) => Struck(me, v, AtRound, fault) || Struck(me, v, AtLookup, fault)
    case _ => false
  }

  /** An owner finds that its file cannot be read on. */
  predicate Unreadable(c: Config, me: Me, v: View)
    requires v.place.In?
  {
    && v.place.phase.Running? && Calm(me, v, AtChunk) && OwnedIn(c, v, v.place.phase.claim)
    && me.world.unreadable(v.turn).Some?
  }

  const UNREADABLE := "Workbook structure could not be processed."

  predicate EndingReady(c: Config, me: Me, v: View, x: EndingAction)
    requires v.place.In?
  {
    var phase := v.place.phase;
    match x
    case DatabaseFails => Meets(c, me, v, DatabaseFault)
    case ProcessingFails(reason) =>
      || (Meets(c, me, v, OtherFault) && reason == J.PROCESSING_FAILED)
      || (Unreadable(c, me, v)
          && var message := me.world.unreadable(v.turn).value;
          reason == if message == "" then UNREADABLE else message)
    case HandleTrouble => phase.Troubled? && Calm(me, v, AtHandler)
    case MarkFailed(now) => phase.Failing? && Calm(me, v, AtHandler) && now == me.world.clock(v.turn)
    case HandlerRaises => (phase.Troubled? || phase.Failing?) && !Calm(me, v, AtHandler)
    case Resend => phase.Requeued? && !Unsendable(c, me, v)
    case ResendRejected => phase.Requeued? && Unsendable(c, me, v)
    case Die => false
  }

  /** The worker may take this step now. What strikes it, and when, is for its world to say. */
  predicate Ready(c: Config, me: Me, v: View, a: Action)
    requires v.place.In?
  {
    match a
    case Intake(w, x) => w == me.w && v.place.phase.Delivered? && IntakeReady(c, me, v, x)
    case Chunk(w, x) => w == me.w && ChunkReady(c, me, v, x)
    case Ending(w, x) => w == me.w && EndingReady(c, me, v, x)
    case _ => false
  }

  // --- What its transactions make of the tables -------------------------------------------------

  /** A view after the import's row has become `job`. */
  function WithJob(c: Config, v: View, job: J.Job, place: Place): View {
    v.(jobs := v.jobs[c.id := job], place := place)
  }

  /** A view after the reset. */
  function WithReset(c: Config, v: View, place: Place): View
    requires c.id in v.jobs
  {
    View(v.jobs[c.id := J.Reset(v.jobs[c.id])], ShipmentsOutside(c.id, v.shipments), ErrorsOutside(c.id, v.errors),
         v.turn, place)
  }

  /** A view after the commit of the chunk that the worker has looked up. */
  function WithChunk(c: Config, v: View, now: nat): View
    requires v.place.In? && v.place.phase.LookedUp? && c.id in v.jobs
  {
    var phase := v.place.phase;
    var r := phase.result;
    View(v.jobs[c.id := J.Heartbeat(J.RecordChunk(v.jobs[c.id], r.totalRows, r.successCount, r.failedCount), now)],
         v.shipments + r.shipments, v.errors + AllNormalised(r.errors), v.turn,
         In(Running(phase.claim, phase.done + 1, Added(phase.sums, r))))
  }

  function AfterIntake(c: Config, me: Me, v: View, x: IntakeAction): View
    requires IntakeReady(c, me, v, x)
  {
    if x.ClaimImport? then
      var job := J.Claim(v.jobs[c.id], x.token, x.name, x.now);
      WithJob(c, v, job, In(Claimed(Claim(x.token, job.attemptCount))))
    else v.(place := Out(IntakeExit(c, me, x)))
  }

  function AfterChunkStep(c: Config, me: Me, v: View, x: ChunkAction): View
    requires v.place.In? && ChunkReady(c, me, v, x)
  {
    var phase := v.place.phase;
    match x
    case ResetRows =>
      if OwnedIn(c, v, phase.claim) then WithReset(c, v, In(Running(phase.claim, 0, Sums(0, 0, 0))))
      else v.(place := Out(Replaced))
    case LookUpChunk(_) => v.(place := In(LookedAt(c, phase, v.shipments)))
    case PersistChunk(_, now) =>
      if OwnedIn(c, v, phase.claim) then WithChunk(c, v, now) else v.(place := Out(Replaced))
    case IntegrityFails =>
      v.(place := In(Conflicted(phase.claim, phase.done, phase.sums, phase.found, phase.result)))
    case Reclassify(_) => v.(place := In(RacedAt(c, phase, v.shipments)))
    case CompleteImport(now) =>
      if OwnedIn(c, v, phase.claim) then
        var sums := phase.sums;
        WithJob(c, v, J.Complete(v.jobs[c.id], sums.total, sums.success, sums.failed, now), Out(Completed))
      else v.(place := Out(Replaced))
    case Stop => v.(place := Out(Replaced))
  }

  function AfterEnding(c: Config, me: Me, v: View, x: EndingAction): View
    requires v.place.In? && EndingReady(c, me, v, x)
  {
    var phase := v.place.phase;
    match x
    case DatabaseFails => v.(place := In(Troubled(phase.claim)))
    case ProcessingFails(reason) => v.(place := In(Failing(phase.claim, reason)))
    case HandleTrouble =>
      if phase.claim.attempt >= c.maxAttempts then v.(place := In(Failing(phase.claim, J.MAX_ATTEMPTS)))
      else if OwnedIn(c, v, phase.claim)
      then WithJob(c, v, J.Requeue(v.jobs[c.id], J.TEMPORARY_ERROR), In(Requeued(phase.claim)))
      else v.(place := Out(Replaced))
    case MarkFailed(now) =>
      if OwnedIn(c, v, phase.claim)
      then WithJob(c, v, J.Fail(v.jobs[c.id], phase.reason, now), Out(MarkedFailed(phase.reason)))
      else v.(place := Out(Replaced))
    case _ => v.(place := Out(EndingExit(c, me, v, x)))
  }

  /** The tables and the worker after its step. */
  function AfterStep(c: Config, me: Me, v: View, a: Action): View
    requires v.place.In? && Ready(c, me, v, a)
  {
    match a
    case Intake(_, x) => AfterIntake(c, me, v, x)
    case Chunk(_, x) => AfterChunkStep(c, me, v, x)
    case Ending(_, x) => AfterEnding(c, me, v, x)
  }

  /** What the worker books is a step it may take now; what it books as the others' is their turn, and nothing else. */
  predicate Recorded(c: Config, me: Me, e: Entry) {
    match e.action
    case None => e.after == AfterTurn(c, me, e.before)
    case Some(a) => e.before.place.In? && Ready(c, me, e.before, a) && e.after == AfterStep(c, me, e.before, a)
  }

  /** The journal leads from one view to the other without a gap. */
  predicate Walk(c: Config, me: Me, steps: seq<Entry>, v: View, v': View) {
    if steps == [] then v' == v
    else
      && steps[0].before == v && steps[|steps| - 1].after == v'
      && (forall i :: 0 <= i < |steps| - 1 ==> steps[i].after == steps[i + 1].before)
      && forall i :: 0 <= i < |steps| ==> Recorded(c, me, steps[i])
  }

  lemma WalkJoin(c: Config, me: Me, a: seq<Entry>, b: seq<Entry>, v: View, v': View, v'': View)
    requires Walk(c, me, a, v, v') && Walk(c, me, b, v', v'')
    ensures Walk(c, me, a + b, v, v'')
  {
    hide Recorded;
    if a == [] {
      assert a + b == b;
    } else if b == [] {
      assert a + b == a;
    }
  }

  lemma WalkOn(c: Config, me: Me, steps: seq<Entry>, v: View, e: Entry)
    requires Walk(c, me, steps, v, e.before) && Recorded(c, me, e)
    ensures Walk(c, me, steps + [e], v, e.after)
  {
    hide Recorded;
    assert Walk(c, me, [e], e.before, e.after);
    WalkJoin(c, me, steps, [e], v, e.before, e.after);
  }

  /** A journal in the making: whose it is, where it began, and its entries so far. */
  datatype Log = Log(me: Me, start: View, steps: seq<Entry>)

  predicate Kept(c: Config, log: Log, v: View) {
    Walk(c, log.me, log.steps, log.start, v)
  }

  ghost predicate Continues(c: Config, log: Log, log': Log, v: View) {
    log'.me == log.me && log'.start == log.start && log.steps <= log'.steps && Kept(c, log', v)
  }

  /** One more transaction of the worker. */
  lemma Keep(c: Config, log: Log, v: View, a: Action) returns (log': Log)
    requires Kept(c, log, v) && v.place.In? && Ready(c, log.me, v, a)
    ensures Continues(c, log, log', AfterStep(c, log.me, v, a))
  {
    hide Walk, Ready, AfterStep;
    var e := Entry(v, Some(a), AfterStep(c, log.me, v, a));
    log' := log.(steps := log.steps + [e]);
    WalkOn(c, log.me, log.steps, log.start, e);
  }

  /** One more turn of the others. */
  lemma KeepOthers(c: Config, log: Log, v: View) returns (log': Log)
    requires Kept(c, log, v)
    ensures Continues(c, log, log', AfterTurn(c, log.me, v))
  {
    hide Walk, AfterTurn;
    var e := Entry(v, None, AfterTurn(c, log.me, v));
    log' := log.(steps := log.steps + [e]);
    WalkOn(c, log.me, log.steps, log.start, e);
  }

  // --- What an end says of the journal ----------------------------------------------------------

  /**
   * However the worker came to be done, its last step says so: an import is called completed only after an owner's
   * completion, failed only after an owner's failure, and a worker calls itself replaced only without ownership.
   */
  lemma {:induction false} EndIsEarned(c: Config, me: Me, steps: seq<Entry>, v: View, v': View) returns (i: nat)
    requires Walk(c, me, steps, v, v') && v.place == In(Delivered) && v'.place != In(Delivered)
    ensures i < |steps| && steps[i].action.Some? && steps[i].after.place == v'.place
    ensures steps[i].before.place.In? && TakenBy(steps[i].action.value, me.w)
    ensures Earned(c, me, steps[i].before, steps[i].action.value, v'.place)
    ensures forall j :: i < j < |steps| ==> steps[j].action.None?
  {
    hide Ready, AfterStep, Earned, AfterTurn, Walk;
    assert steps != [] by {
      WalkEnds(c, me, steps, v, v');
    }
    var n := |steps| - 1;
    WalkAt(c, me, steps, v, v', n);
    WalkEnds(c, me, steps, v, v');
    if steps[n].action.Some? {
      i := n;
      StepEarned(c, me, steps[n].before, steps[n].action.value);
    } else {
      TurnKeepsPlace(c, me, steps[n].before);
      WalkFront(c, me, steps, v, v');
      i := EndIsEarned(c, me, steps[..n], v, ViewAt(steps, v, n));
      assert forall j :: 0 <= j < n ==> steps[..n][j] == steps[j];
    }
  }

  lemma StepEarned(c: Config, me: Me, v: View, a: Action)
    requires v.place.In? && Ready(c, me, v, a)
    ensures TakenBy(a, me.w) && AfterStep(c, me, v, a).turn == v.turn
    ensures Earned(c, me, v, a, AfterStep(c, me, v, a).place)
  {
    hide Stands, SeenBefore, Collides, Others, Judge, Reclassified, ValidCodes;
  }

  lemma WalkEnds(c: Config, me: Me, steps: seq<Entry>, v: View, v': View)
    requires Walk(c, me, steps, v, v')
    ensures steps == [] ==> v' == v
    ensures steps != [] ==> steps[|steps| - 1].after == v'
  {
    hide Recorded;
  }

  lemma TurnKeepsPlace(c: Config, me: Me, v: View)
    ensures AfterTurn(c, me, v).place == v.place && AfterTurn(c, me, v).turn == v.turn + 1
  {
    hide Turn;
  }

  /** The view that a journal begun at `v` has reached before its entry `n`. */
  function ViewAt(steps: seq<Entry>, v: View, n: nat): View
    requires n <= |steps|
  {
    if n == 0 then v else steps[n - 1].after
  }

  lemma WalkAt(c: Config, me: Me, steps: seq<Entry>, v: View, v': View, n: nat)
    requires Walk(c, me, steps, v, v') && n < |steps|
    ensures steps[n].before == ViewAt(steps, v, n) && Recorded(c, me, steps[n])
  {
    hide Recorded;
    if n != 0 {
      assert steps[n - 1].after == steps[n - 1 + 1].before;
    }
  }

  lemma WalkFront(c: Config, me: Me, steps: seq<Entry>, v: View, v': View)
    requires Walk(c, me, steps, v, v') && steps != []
    ensures Walk(c, me, steps[..|steps| - 1], v, ViewAt(steps, v, |steps| - 1))
  {
    hide Recorded;
    var n := |steps| - 1;
    if n != 0 {
      assert steps[n - 1].after == steps[n - 1 + 1].before;
    }
  }

  // --- A journal is a run -----------------------------------------------------------------------

  /** A step of somebody else: of another worker while this one holds its message, and under another token. */
  predicate Foreign(me: Me, place: Place, a: Action) {
    && (place.In? ==> !TakenBy(a, me.w))
    && !(a.Intake? && a.intake.ClaimImport? && a.intake.token == me.token)
  }

  predicate OthersRun(c: Config, me: Me, place: Place, s: State, actions: seq<Action>, s': State)
    decreases |actions|
  {
    if actions == [] then s' == s
    else
      && Foreign(me, place, actions[0]) && Enabled(c, s, actions[0])
      && OthersRun(c, me, place, Next(c, s, actions[0]), actions[1..], s')
  }

  /** A turn of the others is steps of the lifecycle, and the worker's own steps are taken where they are possible. */
  predicate Played(c: Config, me: Me, e: Entry, others: seq<Action>, s: State, s': State) {
    match e.action
    case None => OthersRun(c, me, e.before.place, s, others, s') && Shown(c, s', e.after)
    case Some(a) => (Skips(a) ==> Enabled(c, s, a)) && (Enabled(c, s, a) ==> s' == Next(c, s, a))
  }

  ghost predicate Plays(c: Config, me: Me, steps: seq<Entry>, others: seq<seq<Action>>, states: seq<State>) {
    && |states| == |steps| + 1 && |others| == |steps|
    && forall i :: 0 <= i < |steps| ==> Played(c, me, steps[i], others[i], states[i], states[i + 1])
  }

  lemma ForeignStep(c: Config, me: Me, s: State, place: Place, a: Action)
    requires At(me, s, place) && NewToken(me, s, place)
    requires Foreign(me, place, a) && Enabled(c, s, a)
    ensures At(me, Next(c, s, a), place) && NewToken(me, Next(c, s, a), place)
  {
    TokensGrow(c, s, a);
    if place.In? {
      OthersKeepWorker(c, s, a, me.w);
    }
    hide Next, Enabled;
  }

  /** Tokens are issued by claims alone. */
  lemma TokensGrow(c: Config, s: State, a: Action)
    requires Enabled(c, s, a)
    ensures Next(c, s, a).tokens ==
            if a.Intake? && a.intake.ClaimImport? then s.tokens + {a.intake.token} else s.tokens
  {
    match a
    case ByPublisher(_) => hide BoxNext, Exhausts;
    case ByBroker(_) =>
    case Intake(_, _) =>
    case Chunk(_, _) => hide Looked, Raced, Inserted;
    case Ending(_, _) =>
    case ByWatchdog(_, _, _) =>
  }

  lemma {:induction false} OthersKeepFit(c: Config, me: Me, place: Place, s: State, actions: seq<Action>, s': State)
    requires Reachable(c, s) && OthersRun(c, me, place, s, actions, s')
    requires At(me, s, place) && NewToken(me, s, place)
    ensures Reachable(c, s') && At(me, s', place) && NewToken(me, s', place)
    decreases |actions|
  {
    hide Next, Enabled, Reachable, At, NewToken, Foreign;
    if actions != [] {
      ForeignStep(c, me, s, place, actions[0]);
      ReachableNext(c, s, actions[0]);
      OthersKeepFit(c, me, place, Next(c, s, actions[0]), actions[1..], s');
    }
  }

  lemma EntryIsARun(c: Config, me: Me, e: Entry, others: seq<Action>, s: State, s': State)
    requires Reachable(c, s) && Fits(c, me, s, e.before) && Recorded(c, me, e) && Played(c, me, e, others, s, s')
    ensures Reachable(c, s') && Fits(c, me, s', e.after)
    ensures e.action.Some? ==> Enabled(c, s, e.action.value) && s' == Next(c, s, e.action.value)
  {
    hide Next, Enabled, Reachable, Shown, At, OthersRun, Skips, AfterTurn, Ready, AfterStep;
    if e.action.None? {
      OthersKeepFit(c, me, e.before.place, s, others, s');
      TurnKeepsPlace(c, me, e.before);
    } else {
      StepTaken(c, me, e.before, e.action.value);
      StepEarned(c, me, e.before, e.action.value);
      assert Lands(c, me, s, e.action.value, e.after);
      ReachableNext(c, s, e.action.value);
    }
  }

  /**
   * If the turns of the others in between are steps of the lifecycle, then so is everything: from a reachable state
   * each transaction of the worker is an enabled step of its own, every state is reachable, and every view of the
   * journal shows the state of its moment.
   */
  lemma {:induction false} WalkIsARun(c: Config, me: Me, steps: seq<Entry>, others: seq<seq<Action>>,
          states: seq<State>, v: View, v': View, n: nat)
    requires Walk(c, me, steps, v, v') && Plays(c, me, steps, others, states) && n <= |steps|
    requires Reachable(c, states[0]) && Fits(c, me, states[0], v)
    ensures Reachable(c, states[n]) && Fits(c, me, states[n], ViewAt(steps, v, n))
    ensures forall i :: 0 <= i < n && steps[i].action.Some? ==>
              Enabled(c, states[i], steps[i].action.value) && states[i + 1] == Next(c, states[i], steps[i].action.value)
  {
    hide Walk, Recorded, Played, Reachable, Fits, Next, Enabled;
    if n != 0 {
      WalkIsARun(c, me, steps, others, states, v, v', n - 1);
      WalkAt(c, me, steps, v, v', n - 1);
      assert Played(c, me, steps[n - 1], others[n - 1], states[n - 1], states[n - 1 + 1]);
      EntryIsARun(c, me, steps[n - 1], others[n - 1], states[n - 1], states[n]);
    }
  }

  /** The counters of the row count the import's rows in the tables. */
  predicate CountersMatch(c: Config, v: View) {
    && c.id in v.jobs
    && var job := v.jobs[c.id];
    && job.successCount == |ShipmentsIn(c.id, v.shipments)|
    && job.failedCount == |RowNumbers(multiset(ErrorsIn(c.id, v.errors)))|
    && job.totalRows == job.processedRows == job.successCount + job.failedCount
  }

  /** So however a delivery ends, counters and tables agree afterwards, as in every state of the protocol. */
  lemma CountersMatchAfterwards(c: Config, me: Me, steps: seq<Entry>, others: seq<seq<Action>>, states: seq<State>,
                                v: View, v': View)
    requires Configured(c) && Walk(c, me, steps, v, v') && Plays(c, me, steps, others, states)
    requires Reachable(c, states[0]) && Fits(c, me, states[0], v)
    ensures CountersMatch(c, v')
  {
    WalkIsARun(c, me, steps, others, states, v, v', |steps|);
    assert ViewAt(steps, v, |steps|) == v' by {
      WalkEnds(c, me, steps, v, v');
    }
    hide Walk, Plays, Reachable, Configured, RowNumbers, ShipmentsIn, ErrorsIn;
    CountersMatchTables(c, states[|steps|]);
  }

  // --- Worlds that keep to the lifecycle --------------------------------------------------------

  /** The next turn of the others, begun in `s`, is these steps of the lifecycle. */
  predicate TurnIs(c: Config, me: Me, knows: (State, View) -> bool, s: State, v: View, actions: seq<Action>, s': State)
  {
    && OthersRun(c, me, v.place, s, actions, s')
    && Shown(c, s', AfterTurn(c, me, v)) && knows(s', AfterTurn(c, me, v))
  }

  /** The world may be in this situation: the state is reachable, the view fits it, and the world takes it so. */
  ghost predicate Situation(c: Config, me: Me, knows: (State, View) -> bool, s: State, v: View) {
    Reachable(c, s) && Fits(c, me, s, v) && knows(s, v)
  }

  /** A step of the worker itself leads from one situation to the other. */
  predicate OwnStep(c: Config, me: Me, s: State, v: View, a: Action, v': View) {
    TakenBy(a, me.w) && Enabled(c, s, a) && v'.turn == v.turn && Fits(c, me, Next(c, s, a), v')
  }

  /**
   * The others keep to the lifecycle. `knows` is what they go by: in any situation they know, their turn is steps
   * of the lifecycle to a situation they know, who locks the row is a process that may, and they keep up with the
   * worker's own steps.
   */
  ghost predicate Lawful(c: Config, me: Me, knows: (State, View) -> bool) {
    && (forall s, v | Situation(c, me, knows, s, v) :: exists actions, s' :: TurnIs(c, me, knows, s, v, actions, s'))
    && (forall s, v | Situation(c, me, knows, s, v) && v.place == In(Delivered) && me.world.lock(v.turn).Some? ::
          Enabled(c, s, Intake(me.w, SkipOf(me.world.lock(v.turn).value))))
    && (forall s, v, a, v' | Situation(c, me, knows, s, v) && OwnStep(c, me, s, v, a, v') :: knows(Next(c, s, a), v'))
  }

  /** The delivery is a run of the protocol from `s`, and the view that it ends with is one of the run's last state. */
  ghost predicate IsARun(c: Config, log: Log, s: State, v: View, others: seq<seq<Action>>, states: seq<State>) {
    && Plays(c, log.me, log.steps, others, states)
    && states[0] == s && Reachable(c, states[|log.steps|]) && Fits(c, log.me, states[|log.steps|], v)
    && forall i :: 0 <= i < |log.steps| && log.steps[i].action.Some? ==>
         && Enabled(c, states[i], log.steps[i].action.value)
         && states[i + 1] == Next(c, states[i], log.steps[i].action.value)
  }

  lemma PlayOn(c: Config, me: Me, knows: (State, View) -> bool, e: Entry, s: State)
    returns (others: seq<Action>, s': State)
    requires Lawful(c, me, knows) && Situation(c, me, knows, s, e.before) && Recorded(c, me, e)
    ensures Played(c, me, e, others, s, s') && Situation(c, me, knows, s', e.after)
  {
    hide Next, Enabled, At, Shown, Reachable, OthersRun, Turn;
    if e.action.None? {
      others, s' :| TurnIs(c, me, knows, s, e.before, others, s');
      assert TurnIs(c, me, knows, s, e.before, others, s');
    } else {
      others := [];
      s' := PlayOwn(c, me, knows, e, s);
    }
    EntryIsARun(c, me, e, others, s, s');
  }

  lemma PlayOwn(c: Config, me: Me, knows: (State, View) -> bool, e: Entry, s: State) returns (s': State)
    requires Lawful(c, me, knows) && Situation(c, me, knows, s, e.before) && Recorded(c, me, e) && e.action.Some?
    ensures Played(c, me, e, [], s, s') && knows(s', e.after)
  {
    hide Next, Enabled, At, Shown, Reachable, OthersRun, AfterTurn, AfterStep, ChunkReady, EndingReady;
    var a := e.action.value;
    assert Skips(a) ==> Enabled(c, s, a);
    StepTaken(c, me, e.before, a);
    StepEarned(c, me, e.before, a);
    assert Lands(c, me, s, a, e.after);
    s' := Next(c, s, a);
    assert OwnStep(c, me, s, e.before, a, e.after);
  }

  /** Among lawful others every journal is played, from every situation that it may begin in. */
  lemma {:induction false} LawfulIsPlayed(c: Config, me: Me, knows: (State, View) -> bool, steps: seq<Entry>, s: State,
          v: View, v': View)
    returns (others: seq<seq<Action>>, states: seq<State>)
    requires Lawful(c, me, knows) && Walk(c, me, steps, v, v') && Situation(c, me, knows, s, v)
    ensures Plays(c, me, steps, others, states) && states[0] == s
    ensures Situation(c, me, knows, states[|steps|], v')
  {
    hide *;
    WalkEnds(c, me, steps, v, v');
    if steps == [] {
      others, states := [], [s];
      NothingPlayed(c, me, s);
    } else {
      var n := |steps| - 1;
      WalkFront(c, me, steps, v, v');
      WalkAt(c, me, steps, v, v', n);
      var before, front := LawfulIsPlayed(c, me, knows, steps[..n], s, v, ViewAt(steps, v, n));
      PlaysLength(c, me, steps[..n], before, front);
      var turn, last := PlayOn(c, me, knows, steps[n], front[n]);
      others, states := before + [turn], front + [last];
      PlaysOn(c, me, steps, before, front, turn, last);
    }
  }

  lemma NothingPlayed(c: Config, me: Me, s: State)
    ensures Plays(c, me, [], [], [s])
  {
  }

  lemma PlaysLength(c: Config, me: Me, steps: seq<Entry>, others: seq<seq<Action>>, states: seq<State>)
    requires Plays(c, me, steps, others, states)
    ensures |states| == |steps| + 1 && |others| == |steps|
  {
    hide Played;
  }

  lemma PlaysOn(c: Config, me: Me, steps: seq<Entry>, others: seq<seq<Action>>, states: seq<State>,
                turn: seq<Action>, last: State)
    requires steps != [] && Plays(c, me, steps[..|steps| - 1], others, states)
    requires |states| == |steps| && Played(c, me, steps[|steps| - 1], turn, states[|steps| - 1], last)
    ensures Plays(c, me, steps, others + [turn], states + [last])
  {
    hide Played;
    var n := |steps| - 1;
    forall i | 0 <= i < |steps|
      ensures Played(c, me, steps[i], (others + [turn])[i], (states + [last])[i], (states + [last])[i + 1])
    {
      if i < n {
        assert Played(c, me, steps[..n][i], others[i], states[i], states[i + 1]);
      }
    }
  }

  /**
   * The delivery of a message, others and all: if the others keep to the lifecycle, it is a run of the protocol, and
   * counters and tables agree however it ends. What the others are is known before the delivery begins.
   */
  lemma DeliveryIsARun(c: Config, log: Log, v: View, s: State, knows: (State, View) -> bool)
    returns (others: seq<seq<Action>>, states: seq<State>)
    requires Configured(c) && Kept(c, log, v)
    requires Lawful(c, log.me, knows) && Situation(c, log.me, knows, s, log.start)
    ensures IsARun(c, log, s, v, others, states) && CountersMatch(c, v)
  {
    hide Lawful, Walk, Plays, Reachable, Fits, Next, Enabled, CountersMatch, Configured;
    others, states := LawfulIsPlayed(c, log.me, knows, log.steps, s, log.start, v);
    PlaysLength(c, log.me, log.steps, others, states);
    WalkIsARun(c, log.me, log.steps, others, states, log.start, v, |log.steps|);
    CountersMatchAfterwards(c, log.me, log.steps, others, states, log.start, v);
  }

  /** Others that do nothing and lock nothing keep to the lifecycle. */
  lemma QuietWorldIsLawful(c: Config, me: Me)
    requires forall n, t :: me.world.others(n, t) == t
    requires forall n :: me.world.lock(n).None?
    ensures Lawful(c, me, (s, v) => true)
  {
    var knows: (State, View) -> bool := (s, v) => true;
    hide Reachable, Shows, Next, Enabled, At;
    forall s, v | Situation(c, me, knows, s, v) ensures exists actions, s' :: TurnIs(c, me, knows, s, v, actions, s') {
      assert TurnIs(c, me, knows, s, v, [], s);
    }
  }

  /** So do others of which one is the watchdog, which takes the import away from its worker whenever it is stale. */
  lemma WatchdogIsLawful(c: Config, me: Me, before: nat, now: nat)
    requires forall n, t :: me.world.others(n, t) == Recovered(c.id, t, before, now)
    requires forall n :: me.world.lock(n).None?
    ensures Lawful(c, me, (s, v) => true)
  {
    var knows: (State, View) -> bool := (s, v) => true;
    hide Reachable, Shows, Next, Enabled, At;
    forall s, v | Situation(c, me, knows, s, v) ensures exists actions, s' :: TurnIs(c, me, knows, s, v, actions, s') {
      var actions, s' := WatchdogTurn(c, me, s, v, before, now);
      assert TurnIs(c, me, knows, s, v, actions, s');
    }
  }

  /** The watchdog's transaction on the tables of an import. */
  function Recovered(id: ImportId, t: Tables, before: nat, now: nat): Tables {
    if id in t.jobs && J.Stale(t.jobs[id], before) then t.(jobs := t.jobs[id := J.RecoverStale(t.jobs[id], now)]) else t
  }

  lemma WatchdogTurn(c: Config, me: Me, s: State, v: View, before: nat, now: nat)
    returns (actions: seq<Action>, s': State)
    requires Shown(c, s, v)
    requires forall n, t :: me.world.others(n, t) == Recovered(c.id, t, before, now)
    ensures OthersRun(c, me, v.place, s, actions, s') && Shown(c, s', AfterTurn(c, me, v))
  {
    hide ShipmentsIn, ErrorsIn;
    var t := Tables(v.jobs, v.shipments, v.errors);
    var t' := Turn(me.world, c.id, me.token, v.turn, t);
    if t' == t {
      actions, s' := [], s;
    } else {
      var e := NewEventId(s.box.events.Keys);
      var a := ByWatchdog(e, before, now);
      actions, s' := [a], Next(c, s, a);
      assert OthersRun(c, me, v.place, s', [], s');
      assert [a][1..] == [];
    }
  }

  lemma NewEventId(ids: set<O.EventId>) returns (e: O.EventId)
    ensures e !in ids && forall i | i in ids :: i < e
    decreases ids
  {
    e := 0;
    if ids != {} {
      var i :| i in ids;
      var f := NewEventId(ids - {i});
      assert forall j | j in ids :: j == i || j in ids - {i};
      e := if i < f then f else i + 1;
    }
  }

  // --- The transactions of a worker -------------------------------------------------------------

  lemma FitMeans(c: Config, me: Me, s: State, v: View)
    requires Fits(c, me, s, v) && v.place.In?
    ensures c.id in v.jobs && Shows(c, s, v.jobs[c.id], v.shipments, v.errors) && s.job == v.jobs[c.id]
    ensures me.w in s.workers && s.workers[me.w] == Worker(me.message, v.place.phase)
    ensures v.place.phase.Delivered? ==> me.token !in s.tokens
  {
  }

  lemma MovedAt(me: Me, s: State, s': State, phase: Phase)
    requires MovesTo(s, s', me.w, phase) && s.workers[me.w].message == me.message
    ensures At(me, s', In(phase))
  {
  }

  lemma ClaimTaken(c: Config, me: Me, v: View, name: string, now: nat)
    requires v.place == In(Delivered) && c.id in v.jobs && J.Claimable(v.jobs[c.id])
    ensures var a := Intake(me.w, ClaimImport(me.token, name, now));
            var job := J.Claim(v.jobs[c.id], me.token, name, now);
            Takes(c, me, v, a, WithJob(c, v, job, In(Claimed(Claim(me.token, job.attemptCount)))))
  {
    var a, job := Intake(me.w, ClaimImport(me.token, name, now)), J.Claim(v.jobs[c.id], me.token, name, now);
    var claimed := Claimed(Claim(me.token, job.attemptCount));
    hide Next, Enabled, Shows, Fits, MovesTo, At;
    forall s | Fits(c, me, s, v)
      ensures Enabled(c, s, a) && Shown(c, Next(c, s, a), WithJob(c, v, job, In(claimed)))
           && At(me, Next(c, s, a), In(claimed))
    {
      FitMeans(c, me, s, v);
      ClaimIsAStep(c, s, me.w, me.token, name, now, v.jobs[c.id], v.shipments, v.errors);
      MovedAt(me, s, Next(c, s, a), claimed);
    }
  }

  lemma ResetTaken(c: Config, me: Me, v: View, claim: Claim)
    requires v.place == In(Claimed(claim)) && OwnedIn(c, v, claim)
    ensures Takes(c, me, v, Chunk(me.w, ResetRows), WithReset(c, v, In(Running(claim, 0, Sums(0, 0, 0)))))
  {
    var a, running := Chunk(me.w, ResetRows), Running(claim, 0, Sums(0, 0, 0));
    hide Next, Enabled, Shows, Fits, MovesTo, At;
    forall s | Fits(c, me, s, v)
      ensures Enabled(c, s, a) && At(me, Next(c, s, a), In(running))
           && Shows(c, Next(c, s, a), J.Reset(v.jobs[c.id]), ShipmentsOutside(c.id, v.shipments),
                    ErrorsOutside(c.id, v.errors))
    {
      FitMeans(c, me, s, v);
      ResetIsAStep(c, s, me.w, v.jobs[c.id], v.shipments, v.errors);
      MovedAt(me, s, Next(c, s, a), running);
    }
  }

  /** The worker's result stands for its chunk, and its codes are free. */
  predicate Persistable(c: Config, v: View) {
    && Standing(c, v) && v.place.phase.LookedUp?
    && CodeSet(v.place.phase.result.shipments) !! CodeSet(v.shipments)
  }

  lemma PersistShows(c: Config, me: Me, s: State, v: View, phase: Phase, now: nat)
    requires v.place == In(phase) && phase.LookedUp? && c.id in v.jobs && J.Owned(v.jobs[c.id], phase.claim.token)
    requires Shows(c, s, v.jobs[c.id], v.shipments, v.errors)
    requires me.w in s.workers && s.workers[me.w] == Worker(me.message, phase)
    requires phase.done < |c.chunks| && CodeSet(phase.result.shipments) !! CodeSet(v.shipments)
    requires Stands(c.id, c.chunks[phase.done], SeenBefore(c, phase.done), phase.found, phase.result)
    ensures var a, v' := Chunk(me.w, PersistChunk(Others(c, v.shipments), now)), WithChunk(c, v, now);
            && Enabled(c, s, a) && Shows(c, Next(c, s, a), v'.jobs[c.id], v'.shipments, v'.errors)
            && MovesTo(s, Next(c, s, a), me.w, v'.place.phase)
  {
    hide Next, Enabled, Shows, MovesTo, Stands, CodeSet, Others, SeenBefore, AllNormalised;
    PersistIsAStep(c, s, me.w, now, v.jobs[c.id], v.shipments, v.errors);
  }

  lemma PersistFits(c: Config, me: Me, s: State, v: View, now: nat)
    requires Persistable(c, v) && OwnedIn(c, v, v.place.phase.claim) && Fits(c, me, s, v)
    ensures var a := Chunk(me.w, PersistChunk(Others(c, v.shipments), now));
            && Enabled(c, s, a) && Shown(c, Next(c, s, a), WithChunk(c, v, now))
            && At(me, Next(c, s, a), WithChunk(c, v, now).place)
  {
    FitMeans(c, me, s, v);
    hide Next, Enabled, Shows, Fits, MovesTo, At, Stands, CodeSet, Others, SeenBefore, AllNormalised;
    PersistShows(c, me, s, v, v.place.phase, now);
    MovedAt(me, s, Next(c, s, Chunk(me.w, PersistChunk(Others(c, v.shipments), now))),
      WithChunk(c, v, now).place.phase);
  }

  lemma PersistTaken(c: Config, me: Me, v: View, now: nat)
    requires Persistable(c, v) && OwnedIn(c, v, v.place.phase.claim)
    ensures Takes(c, me, v, Chunk(me.w, PersistChunk(Others(c, v.shipments), now)), WithChunk(c, v, now))
  {
    var a := Chunk(me.w, PersistChunk(Others(c, v.shipments), now));
    hide Next, Enabled, Fits, Shown, At, Stands, CodeSet, Others, SeenBefore, AllNormalised;
    forall s | Fits(c, me, s, v)
      ensures Enabled(c, s, a) && Shown(c, Next(c, s, a), WithChunk(c, v, now))
           && At(me, Next(c, s, a), WithChunk(c, v, now).place)
    {
      PersistFits(c, me, s, v, now);
    }
  }

  lemma CompleteTaken(c: Config, me: Me, v: View, now: nat)
    requires v.place.In? && v.place.phase.Running? && OwnedIn(c, v, v.place.phase.claim)
    requires v.place.phase.done >= |c.chunks|
    ensures var sums := v.place.phase.sums;
            Takes(c, me, v, Chunk(me.w, CompleteImport(now)),
              WithJob(c, v, J.Complete(v.jobs[c.id], sums.total, sums.success, sums.failed, now), Out(Completed)))
  {
    hide Next, Enabled, Shows, Fits;
    forall s | Fits(c, me, s, v)
      ensures var a, sums := Chunk(me.w, CompleteImport(now)), v.place.phase.sums;
              && Enabled(c, s, a) && me.w !in Next(c, s, a).workers
              && Shows(c, Next(c, s, a), J.Complete(v.jobs[c.id], sums.total, sums.success, sums.failed, now),
                       v.shipments, v.errors)
    {
      FitMeans(c, me, s, v);
      CompleteIsAStep(c, s, me.w, now, v.jobs[c.id], v.shipments, v.errors);
    }
  }

  lemma RequeueTaken(c: Config, me: Me, v: View, claim: Claim)
    requires v.place == In(Troubled(claim)) && OwnedIn(c, v, claim) && claim.attempt < c.maxAttempts
    ensures Takes(c, me, v, Ending(me.w, HandleTrouble),
              WithJob(c, v, J.Requeue(v.jobs[c.id], J.TEMPORARY_ERROR), In(Requeued(claim))))
  {
    var a := Ending(me.w, HandleTrouble);
    hide Next, Enabled, Shows, Fits, MovesTo, At;
    forall s | Fits(c, me, s, v)
      ensures Enabled(c, s, a) && At(me, Next(c, s, a), In(Requeued(claim)))
           && Shows(c, Next(c, s, a), J.Requeue(v.jobs[c.id], J.TEMPORARY_ERROR), v.shipments, v.errors)
    {
      FitMeans(c, me, s, v);
      RequeueIsAStep(c, s, me.w, v.jobs[c.id], v.shipments, v.errors);
      MovedAt(me, s, Next(c, s, a), Requeued(claim));
    }
  }

  lemma FailTaken(c: Config, me: Me, v: View, claim: Claim, reason: string, now: nat)
    requires v.place == In(Failing(claim, reason)) && OwnedIn(c, v, claim)
    ensures Takes(c, me, v, Ending(me.w, MarkFailed(now)),
              WithJob(c, v, J.Fail(v.jobs[c.id], reason, now), Out(MarkedFailed(reason))))
  {
    hide Next, Enabled, Shows, Fits;
    forall s | Fits(c, me, s, v)
      ensures var a := Ending(me.w, MarkFailed(now));
              && Enabled(c, s, a) && me.w !in Next(c, s, a).workers
              && Shows(c, Next(c, s, a), J.Fail(v.jobs[c.id], reason, now), v.shipments, v.errors)
    {
      FitMeans(c, me, s, v);
      FailIsAStep(c, s, me.w, now, v.jobs[c.id], v.shipments, v.errors);
    }
  }

  // --- Transactions that leave row and tables as they are ---------------------------------------

  lemma QuietStep(c: Config, me: Me, s: State, v: View, a: Action, place: Place)
    requires Fits(c, me, s, v) && Enabled(c, s, a)
    requires Next(c, s, a).job == s.job && Next(c, s, a).stored == s.stored && At(me, Next(c, s, a), place)
    requires place.Out? ==> me.w !in Next(c, s, a).workers
    ensures Lands(c, me, s, a, v.(place := place))
  {
    hide Next, Enabled, At, ShipmentsIn, ErrorsIn;
  }

  lemma IntakeTaken(c: Config, me: Me, v: View, x: IntakeAction)
    requires v.place == In(Delivered) && IntakeReady(c, me, v, x) && !x.ClaimImport?
    ensures Takes(c, me, v, Intake(me.w, x), v.(place := Out(IntakeExit(c, me, x))))
  {
    var a, out := Intake(me.w, x), Out(IntakeExit(c, me, x));
    hide Shown, Lands;
    forall s | Fits(c, me, s, v) && (Skips(a) ==> Enabled(c, s, a)) ensures Lands(c, me, s, a, v.(place := out)) {
      FitMeans(c, me, s, v);
      IntakeLeavesTables(c, s, me.w, x);
      QuietStep(c, me, s, v, a, out);
    }
  }

  lemma IntakeLeavesTables(c: Config, s: State, w: WorkerId, x: IntakeAction)
    requires IntakeEnabled(c, s, w, x) && !x.ClaimImport?
    ensures IntakeNext(c, s, w, x).job == s.job && IntakeNext(c, s, w, x).stored == s.stored
    ensures w !in IntakeNext(c, s, w, x).workers
  {
  }

  /** A step without effect on the tables: one that needs no ownership, or one that lacks it. */
  predicate QuietChunk(c: Config, v: View, x: ChunkAction)
    requires v.place.In? && !v.place.phase.Delivered?
  {
    || x.LookUpChunk? || x.IntegrityFails? || x.Reclassify? || x.Stop?
    || !OwnedIn(c, v, v.place.phase.claim)
  }

  lemma ChunkTaken(c: Config, me: Me, v: View, x: ChunkAction)
    requires v.place.In? && ChunkReady(c, me, v, x) && QuietChunk(c, v, x)
    ensures AfterChunkStep(c, me, v, x) == v.(place := AfterChunkStep(c, me, v, x).place)
    ensures Takes(c, me, v, Chunk(me.w, x), AfterChunkStep(c, me, v, x))
  {
    var a, v' := Chunk(me.w, x), AfterChunkStep(c, me, v, x);
    assert v' == v.(place := v'.place);
    hide Shows, Next, Enabled, Fits, AfterChunkStep, ChunkReady, QuietChunk;
    forall s | Fits(c, me, s, v)
      ensures Lands(c, me, s, a, v')
    {
      FitMeans(c, me, s, v);
      ChunkFits(c, me, s, v, x);
    }
  }

  lemma ChunkFits(c: Config, me: Me, s: State, v: View, x: ChunkAction)
    requires v.place.In? && ChunkReady(c, me, v, x) && QuietChunk(c, v, x) && c.id in v.jobs
    requires Shows(c, s, v.jobs[c.id], v.shipments, v.errors) && s.job == v.jobs[c.id]
    requires me.w in s.workers && s.workers[me.w] == Worker(me.message, v.place.phase)
    ensures var a, place' := Chunk(me.w, x), AfterChunkStep(c, me, v, x).place;
            && Enabled(c, s, a) && Shows(c, Next(c, s, a), v.jobs[c.id], v.shipments, v.errors)
            && At(me, Next(c, s, a), place') && (place'.Out? ==> me.w !in Next(c, s, a).workers)
  {
    var a, job, phase := Chunk(me.w, x), v.jobs[c.id], v.place.phase;
    hide Shows, LookedAt, RacedAt, Looked, Raced, Inserted, Others, CodeSet, Stands, SeenBefore, WithChunk, WithReset;
    match x
    case LookUpChunk(_) => LookUpIsAStep(c, s, me.w, job, v.shipments, v.errors);
    case Reclassify(_) => ReclassifyIsAStep(c, s, me.w, job, v.shipments, v.errors);
    case IntegrityFails => SameTablesShow(c, s, Next(c, s, a), job, v.shipments, v.errors);
    case PersistChunk(_, now) =>
      PersistIsEnabled(c, s, me.w, now, job, v.shipments, v.errors);
      UnguardedIsAStep(c, s, me.w, a, job, v.shipments, v.errors);
    case _ => UnguardedIsAStep(c, s, me.w, a, job, v.shipments, v.errors);
  }

  lemma SameTablesShow(c: Config, s: State, s': State, job: J.Job, shipments: seq<Shipment>, errors: seq<ErrorRow>)
    requires Shows(c, s, job, shipments, errors) && s'.job == s.job && s'.stored == s.stored
    ensures Shows(c, s', job, shipments, errors)
  {
    hide ShipmentsIn, ErrorsIn;
  }

  predicate QuietEnding(c: Config, v: View, x: EndingAction)
    requires v.place.In? && !v.place.phase.Delivered?
  {
    || !(x.HandleTrouble? || x.MarkFailed?)
    || (x.HandleTrouble? && v.place.phase.claim.attempt >= c.maxAttempts)
    || !OwnedIn(c, v, v.place.phase.claim)
  }

  lemma EndingTaken(c: Config, me: Me, v: View, x: EndingAction)
    requires v.place.In? && EndingReady(c, me, v, x) && QuietEnding(c, v, x)
    ensures AfterEnding(c, me, v, x) == v.(place := AfterEnding(c, me, v, x).place)
    ensures Takes(c, me, v, Ending(me.w, x), AfterEnding(c, me, v, x))
  {
    var a, v' := Ending(me.w, x), AfterEnding(c, me, v, x);
    assert v' == v.(place := v'.place);
    hide Shows, Next, Enabled, Fits, AfterEnding, EndingReady, QuietEnding;
    forall s | Fits(c, me, s, v)
      ensures Lands(c, me, s, a, v')
    {
      FitMeans(c, me, s, v);
      EndingFits(c, me, s, v, x);
      SameTablesShow(c, s, Next(c, s, a), v.jobs[c.id], v.shipments, v.errors);
    }
  }

  lemma EndingFits(c: Config, me: Me, s: State, v: View, x: EndingAction)
    requires v.place.In? && EndingReady(c, me, v, x) && QuietEnding(c, v, x) && c.id in v.jobs
    requires s.job == v.jobs[c.id]
    requires me.w in s.workers && s.workers[me.w] == Worker(me.message, v.place.phase)
    ensures var a, place' := Ending(me.w, x), AfterEnding(c, me, v, x).place;
            && Enabled(c, s, a) && Next(c, s, a).job == s.job && Next(c, s, a).stored == s.stored
            && At(me, Next(c, s, a), place') && (place'.Out? ==> me.w !in Next(c, s, a).workers)
  {
  }

  /** Whatever the worker may do is a step of the lifecycle, in every state that its view fits. */
  lemma StepTaken(c: Config, me: Me, v: View, a: Action)
    requires v.place.In? && Ready(c, me, v, a)
    ensures Takes(c, me, v, a, AfterStep(c, me, v, a))
  {
    hide Takes, AfterChunkStep, AfterEnding, ChunkReady, EndingReady, IntakeReady;
    match a
    case Intake(_, x) => IntakeStepTaken(c, me, v, x);
    case Chunk(_, x) => ChunkStepTaken(c, me, v, x);
    case Ending(_, x) => EndingStepTaken(c, me, v, x);
  }

  lemma IntakeStepTaken(c: Config, me: Me, v: View, x: IntakeAction)
    requires v.place == In(Delivered) && IntakeReady(c, me, v, x)
    ensures Takes(c, me, v, Intake(me.w, x), AfterIntake(c, me, v, x))
  {
    hide Takes;
    if x.ClaimImport? {
      ClaimTaken(c, me, v, x.name, x.now);
    } else {
      IntakeTaken(c, me, v, x);
    }
  }

  lemma ChunkStepTaken(c: Config, me: Me, v: View, x: ChunkAction)
    requires v.place.In? && ChunkReady(c, me, v, x)
    ensures Takes(c, me, v, Chunk(me.w, x), AfterChunkStep(c, me, v, x))
  {
    hide Takes, WithReset, WithChunk, WithJob, Stands, SeenBefore, Others;
    if QuietChunk(c, v, x) {
      ChunkTaken(c, me, v, x);
    } else {
      match x
      case ResetRows => ResetTaken(c, me, v, v.place.phase.claim);
      case PersistChunk(_, now) => PersistTaken(c, me, v, now);
      case CompleteImport(now) => CompleteTaken(c, me, v, now);
    }
  }

  lemma EndingStepTaken(c: Config, me: Me, v: View, x: EndingAction)
    requires v.place.In? && EndingReady(c, me, v, x)
    ensures Takes(c, me, v, Ending(me.w, x), AfterEnding(c, me, v, x))
  {
    hide Takes, WithJob;
    if QuietEnding(c, v, x) {
      EndingTaken(c, me, v, x);
    } else {
      match x
      case HandleTrouble => RequeueTaken(c, me, v, v.place.phase.claim);
      case MarkFailed(now) => FailTaken(c, me, v, v.place.phase.claim, v.place.phase.reason, now);
    }
  }
}
