/**
 * With the codes of the other imports fixed, a completed import stores exactly what judging the whole
 * file row by row would store, whatever crashes, retries, takeovers and chunk sizes the run went through.
 */
module WholeFile {
  import opened Domain
  import opened Verdicts
  import opened Lifecycle
  import opened LifecycleInvariant
  import opened Accounting
  import opened LifecycleRuns
  import J = ImportJobs

  predicate SeesOnly(a: Action, held: set<Code>) {
    match a
    case Chunk(_, LookUpChunk(others)) => others == held
    case Chunk(_, Reclassify(others)) => others == held
    case _ => true
  }

  predicate ResultRefines(c: Config, s: State, claim: Claim, done: nat, found: set<Code>, held: set<Code>) {
    J.Owned(s.job, claim.token) && done < |c.chunks| ==>
      Judge(c.id, c.chunks[done], SeenBefore(c, done), found) == Judge(c.id, c.chunks[done], SeenBefore(c, done), held)
  }

  predicate PhaseRefines(c: Config, s: State, phase: Phase, held: set<Code>) {
    match phase
    case LookedUp(claim, done, _, found, _) => ResultRefines(c, s, claim, done, found, held)
    case Conflicted(claim, done, _, found, _) => ResultRefines(c, s, claim, done, found, held)
    case _ => true
  }

  predicate StoredRefines(c: Config, s: State, held: set<Code>) {
    && |s.stored.found| <= |c.chunks|
    && Replay(c, s.stored.found) == Judge(c.id, Flatten(c.chunks[..|s.stored.found|]), {}, held)
  }

  predicate Refines(c: Config, s: State, held: set<Code>) {
    && StoredRefines(c, s, held)
    && forall w | w in s.workers :: PhaseRefines(c, s, s.workers[w].phase, held)
  }

  lemma LookUpRefines(c: Config, s: State, w: WorkerId, held: set<Code>)
    requires AccountInv(c, s) && ChunkEnabled(c, s, w, LookUpChunk(held))
    ensures PhaseRefines(c, s, Looked(c, s.stored.shipments, s.workers[w].phase, held), held)
  {
    var phase := s.workers[w].phase;
    assert ProgressInv(c, s, phase);
    if J.Owned(s.job, phase.claim.token) {
      OwnCodesSeen(c, s);
      var seen := SeenBefore(c, phase.done);
      var found := LookUp(c, s.stored.shipments, phase.done, held);
      assert (CodesOf(c.chunks[phase.done]) - seen) * found == (CodesOf(c.chunks[phase.done]) - seen) * held;
      JudgeLookup(c.id, c.chunks[phase.done], seen, found, held);
    }
  }

  /** An owner whose lookup was complete finds nothing new: a conflict that is no race ends the attempt. */
  lemma RaceFindsNothing(c: Config, s: State, w: WorkerId, held: set<Code>)
    requires AccountInv(c, s) && ChunkEnabled(c, s, w, Reclassify(held))
    requires PhaseRefines(c, s, s.workers[w].phase, held)
    ensures PhaseRefines(c, s, Raced(c, s.stored.shipments, s.workers[w].phase, held), held)
  {
    var phase := s.workers[w].phase;
    assert ProgressInv(c, s, phase);
    if J.Owned(s.job, phase.claim.token) {
      OwnCodesSeen(c, s);
      var rows, seen := c.chunks[phase.done], SeenBefore(c, phase.done);
      JudgeCounts(c.id, rows, seen, held);
      assert phase.result.validRows == Judge(c.id, rows, seen, held).valid;
      assert ValidCodes(phase.result.validRows) !! held + CodeSet(s.stored.shipments);
      ReclassifiedRows(c.id, phase.result, held + CodeSet(s.stored.shipments));
    }
  }

  lemma ReplayRefines(c: Config, found: seq<set<Code>>, more: set<Code>, held: set<Code>)
    requires |found| < |c.chunks|
    requires Replay(c, found) == Judge(c.id, Flatten(c.chunks[..|found|]), {}, held)
    requires Judge(c.id, c.chunks[|found|], SeenBefore(c, |found|), more)
          == Judge(c.id, c.chunks[|found|], SeenBefore(c, |found|), held)
    ensures Replay(c, found + [more]) == Judge(c.id, Flatten(c.chunks[..|found| + 1]), {}, held)
  {
    hide *;
    var k := |found|;
    ReplayNext(c, found, more);
    var rows := Flatten(c.chunks[..k]);
    FlattenPrefix(c, k);
    JudgeConcat(c.id, rows, c.chunks[k], {}, held);
    assert {} + CodesOf(rows) == SeenBefore(c, k);
  }

  lemma FlattenPrefix(c: Config, k: nat)
    requires k < |c.chunks|
    ensures Flatten(c.chunks[..k + 1]) == Flatten(c.chunks[..k]) + c.chunks[k]
    ensures CodesOf(Flatten(c.chunks[..k])) == SeenBefore(c, k)
  {
    assert c.chunks[..k + 1][..k] == c.chunks[..k];
  }

  lemma PersistedRows(c: Config, s: State, w: WorkerId, a: ChunkAction)
    requires a.PersistChunk? && ChunkEnabled(c, s, w, a) && J.Owned(s.job, s.workers[w].phase.claim.token)
    ensures ChunkNext(c, s, w, a).stored == Inserted(s.stored, s.workers[w].phase.found, s.workers[w].phase.result)
  {
  }

  lemma OwnedResultRefines(c: Config, s: State, w: WorkerId, held: set<Code>)
    requires AccountInv(c, s) && Refines(c, s, held)
    requires w in s.workers && s.workers[w].phase.LookedUp? && J.Owned(s.job, s.workers[w].phase.claim.token)
    ensures var k := |s.stored.found|;
            && k < |c.chunks|
            && Judge(c.id, c.chunks[k], SeenBefore(c, k), s.workers[w].phase.found)
            == Judge(c.id, c.chunks[k], SeenBefore(c, k), held)
  {
    hide Judge, Replay;
    var phase := s.workers[w].phase;
    assert ProgressInv(c, s, phase) && PhaseRefines(c, s, phase, held);
  }

  lemma PersistRefines(c: Config, s: State, w: WorkerId, a: ChunkAction, held: set<Code>)
    requires AccountInv(c, s) && Refines(c, s, held) && a.PersistChunk? && ChunkEnabled(c, s, w, a)
    requires J.Owned(s.job, s.workers[w].phase.claim.token)
    ensures StoredRefines(c, ChunkNext(c, s, w, a), held)
  {
    OwnedResultRefines(c, s, w, held);
    PersistedRows(c, s, w, a);
    var s' := ChunkNext(c, s, w, a);
    var more := s.workers[w].phase.found;
    hide *;
    StoredRefinesNext(c, s, s', more, held);
  }

  lemma StoredRefinesNext(c: Config, s: State, s': State, more: set<Code>, held: set<Code>)
    requires StoredRefines(c, s, held)
    requires var k := |s.stored.found|;
             && k < |c.chunks|
             && Judge(c.id, c.chunks[k], SeenBefore(c, k), more) == Judge(c.id, c.chunks[k], SeenBefore(c, k), held)
    requires s'.stored.found == s.stored.found + [more]
    ensures StoredRefines(c, s', held)
  {
    hide Replay, Judge;
    ReplayRefines(c, s.stored.found, more, held);
  }

  lemma ChunkRefines(c: Config, s: State, w: WorkerId, a: ChunkAction, held: set<Code>)
    requires AccountInv(c, s) && Refines(c, s, held) && ChunkEnabled(c, s, w, a) && SeesOnly(Chunk(w, a), held)
    ensures StoredRefines(c, ChunkNext(c, s, w, a), held)
    ensures w in ChunkNext(c, s, w, a).workers ==>
              PhaseRefines(c, ChunkNext(c, s, w, a), ChunkNext(c, s, w, a).workers[w].phase, held)
  {
    hide Looked, Raced, Inserted, Judge, Replay;
    var phase := s.workers[w].phase;
    assert PhaseRefines(c, s, phase, held);
    match a
    case LookUpChunk(_) => LookUpRefines(c, s, w, held);
    case Reclassify(_) => RaceFindsNothing(c, s, w, held);
    case PersistChunk(_, _) =>
      if J.Owned(s.job, phase.claim.token) {
        PersistRefines(c, s, w, a, held);
      }
    case ResetRows => EmptyRefines(c, held);
    case _ =>
  }

  lemma EmptyRefines(c: Config, held: set<Code>)
    ensures Replay(c, []) == Judge(c.id, Flatten(c.chunks[..0]), {}, held)
  {
  }

  lemma OthersKeepRefines(c: Config, s: State, a: Action, w: WorkerId, held: set<Code>)
    requires JobInv(c, s) && WorkersInv(c, s) && Refines(c, s, held) && Enabled(c, s, a) && !TakenBy(a, w)
    requires w in Next(c, s, a).workers
    ensures PhaseRefines(c, Next(c, s, a), Next(c, s, a).workers[w].phase, held)
  {
    var s' := Next(c, s, a);
    OthersKeepWorker(c, s, a, w);
    if w in s.workers && HasClaim(s.workers[w]) {
      assert PhaseRefines(c, s, s.workers[w].phase, held);
      if J.Owned(s'.job, s.workers[w].phase.claim.token) {
        OwnerUndisturbed(c, s, a, w);
      }
    }
  }

  lemma OnlyChunksStore(c: Config, s: State, a: Action)
    requires Enabled(c, s, a) && !a.Chunk?
    ensures Next(c, s, a).stored == s.stored
  {
    match a
    case ByPublisher(_) =>
    case ByBroker(_) =>
    case Intake(w, x) => IntakeFrames(c, s, w, x);
    case Ending(w, x) => EndingFrames(c, s, w, x);
    case ByWatchdog(_, _, _) =>
  }

  lemma OwnOtherStepRefines(c: Config, s: State, a: Action, w: WorkerId, held: set<Code>)
    requires Enabled(c, s, a) && TakenBy(a, w) && !a.Chunk? && w in Next(c, s, a).workers
    ensures PhaseRefines(c, Next(c, s, a), Next(c, s, a).workers[w].phase, held)
  {
    match a
    case Intake(_, x) => IntakeFrames(c, s, w, x);
    case Ending(_, x) => EndingLeavesProgress(c, s, w, x);
  }

  lemma RefinesKept(c: Config, s: State, a: Action, held: set<Code>)
    requires JobInv(c, s) && WorkersInv(c, s) && AccountInv(c, s) && Refines(c, s, held)
    requires Enabled(c, s, a) && SeesOnly(a, held)
    ensures Refines(c, Next(c, s, a), held)
  {
    hide StoredRefines, PhaseRefines;
    var s' := Next(c, s, a);
    if a.Chunk? {
      ChunkRefines(c, s, a.w, a.chunk, held);
    } else {
      OnlyChunksStore(c, s, a);
      StoredRefinesFrame(c, s, s', held);
    }
    forall w | w in s'.workers ensures PhaseRefines(c, s', s'.workers[w].phase, held) {
      if !TakenBy(a, w) {
        OthersKeepRefines(c, s, a, w, held);
      } else if !a.Chunk? {
        OwnOtherStepRefines(c, s, a, w, held);
      }
    }
  }

  lemma StoredRefinesFrame(c: Config, s: State, s': State, held: set<Code>)
    requires StoredRefines(c, s, held) && s'.stored == s.stored
    ensures StoredRefines(c, s', held)
  {
  }

  lemma {:induction false} RefinesAlongRun(c: Config, states: seq<State>, actions: seq<Action>, n: nat, held: set<Code>)
    requires Configured(c) && Run(c, states, actions) && n < |states|
    requires forall i :: 0 <= i < n ==> SeesOnly(actions[i], held)
    ensures Refines(c, states[n], held)
  {
    hide *;
    if n == 0 {
      RefinesAtStart(c, states, actions, held);
    } else {
      RunLength(c, states, actions);
      RefinesAlongRun(c, states, actions, n - 1, held);
      RefinesStep(c, states, actions, n - 1, held);
    }
  }

  lemma RefinesAtStart(c: Config, states: seq<State>, actions: seq<Action>, held: set<Code>)
    requires Run(c, states, actions) && states != []
    ensures Refines(c, states[0], held)
  {
    var e, now := RunStart(c, states, actions);
    hide Run, Next, Enabled;
    EmptyRefines(c, held);
  }

  lemma RefinesStep(c: Config, states: seq<State>, actions: seq<Action>, k: nat, held: set<Code>)
    requires Configured(c) && Run(c, states, actions)
    requires k < |actions| && |states| == |actions| + 1
    requires Refines(c, states[k], held) && SeesOnly(actions[k], held)
    ensures Refines(c, states[k + 1], held)
  {
    hide *;
    RunStep(c, states, actions, k);
    InvAlongRun(c, states, actions, k);
    InvParts(c, states[k]);
    RefinesKept(c, states[k], actions[k], held);
  }

  lemma CompletedRefines(c: Config, s: State, held: set<Code>)
    requires Inv(c, s) && Refines(c, s, held) && s.job.status == J.COMPLETED
    ensures var rows := Flatten(c.chunks);
            Tallied(s.job, s.stored, Rowwise(c.id, rows, held, |rows|))
  {
    InvParts(c, s);
    AccountParts(c, s);
    hide Inv, JobInv, WorkersInv, RetriesInv, BoxInv, AccountInv, PhaseRefines, Replay, Judge, Rowwise;
    var rows := Flatten(c.chunks);
    assert c.chunks[..|c.chunks|] == c.chunks;
    JudgeIsRowwise(c.id, rows, held, |rows|);
    assert rows[..|rows|] == rows;
  }

  /** The end-to-end statement: a completed import is the row-by-row specification of its file. */
  lemma CompletedImportIsTheWholeFile(c: Config, states: seq<State>, actions: seq<Action>, n: nat, held: set<Code>)
    requires Configured(c) && Run(c, states, actions) && n < |states|
    requires forall i :: 0 <= i < n ==> SeesOnly(actions[i], held)
    requires states[n].job.status == J.COMPLETED
    ensures var rows := Flatten(c.chunks);
            Tallied(states[n].job, states[n].stored, Rowwise(c.id, rows, held, |rows|))
  {
    RefinesAlongRun(c, states, actions, n, held);
    InvAlongRun(c, states, actions, n);
    hide *;
    CompletedRefines(c, states[n], held);
  }
}
