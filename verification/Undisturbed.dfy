/** What it takes to keep a worker from completing the import that it has claimed. */
module Undisturbed {
  import opened Domain
  import opened Verdicts
  import opened Database
  import opened Repositories
  import opened RowValidation
  import opened Lifecycle
  import opened Accounting
  import opened Refinement
  import opened Journal
  import J = ImportJobs

  /** The codes on which the worker's insertion has collided are gone, or it was not for a code at all. */
  predicate NothingToCorrect(v: View)
    requires v.place.In? && v.place.phase.Conflicted?
  {
    ValidCodes(v.place.phase.result.validRows) !! CodeSet(v.shipments)
  }

  /** No fault strikes at this moment, the file can be read, the import is still owned, and a collision has its code. */
  predicate Undisturbed(c: Config, me: Me, v: View) {
    && (forall p :: Calm(me, v, p)) && me.world.unreadable(v.turn).None?
    && (v.place.In? && Working(v.place.phase) ==> OwnedIn(c, v, v.place.phase.claim))
    && (v.place.In? && v.place.phase.Conflicted? ==> !NothingToCorrect(v))
  }

  predicate OnTheWay(place: Place) {
    match place
    case In(phase) => phase.Delivered? || Working(phase)
    case Out(how) => how.Completed? || how.NothingTaken?
  }

  /** A round of the race gives up exactly if none of the codes is stored. */
  lemma RaceGivesUpExactly(c: Config, v: View)
    requires Standing(c, v) && v.place.phase.Conflicted?
    ensures RacedAt(c, v.place.phase, v.shipments).Failing? <==> NothingToCorrect(v)
  {
    var phase := v.place.phase;
    StandingSuccess(c.id, c.chunks[phase.done], SeenBefore(c, phase.done), phase.found, phase.result);
    ReclassifiedRows(c.id, phase.result, CodeSet(v.shipments));
    hide Reclassified, ValidCodes, CodeSet, Stands;
  }

  lemma StandingSuccess(id: ImportId, rows: seq<PreparedRow>, seen: set<Code>, found: set<Code>, r: ChunkResult)
    requires Stands(id, rows, seen, found, r)
    ensures r.successCount == |r.validRows|
    ensures CodeSet(r.shipments) == ValidCodes(r.validRows) && DistinctCodes(r.shipments)
  {
    JudgeCounts(id, rows, seen, found);
    var valid := Judge(id, rows, seen, found).valid;
    assert r.shipments == ShipmentsOf(valid) && r.validRows == valid;
    hide Judge;
    CodeSetOfValid(valid);
  }

  /**
   * A worker whose insertion has collided gives its import up as failed only after a lookup that found none of its
   * codes stored, or by a fault of the world.
   */
  lemma CollisionIsCorrected(c: Config, me: Me, e: Entry)
    requires Recorded(c, me, e) && e.action.Some?
    requires e.before.place.In? && e.before.place.phase.Conflicted?
    ensures e.after.place.In? && e.after.place.phase.Failing? ==>
              || (e.action == Some(Chunk(me.w, Reclassify(Others(c, e.before.shipments))))
                  && NothingToCorrect(e.before))
              || me.world.fault(e.before.turn, AtRound) == Some(OtherFault)
              || me.world.fault(e.before.turn, AtLookup) == Some(OtherFault)
    ensures e.after.place == In(Troubled(e.before.place.phase.claim)) ==>
              || me.world.fault(e.before.turn, AtRound) == Some(DatabaseFault)
              || me.world.fault(e.before.turn, AtLookup) == Some(DatabaseFault)
    ensures e.after.place.Out? ==> !OwnedIn(c, e.before, e.before.place.phase.claim)
  {
    var a := e.action.value;
    if a.Chunk? && a.chunk.Reclassify? {
      RaceGivesUpExactly(c, e.before);
    }
    hide NothingToCorrect, Stands, SeenBefore, Others, Reclassified, ValidCodes, CodeSet, Collides;
  }

  lemma NoFaults(me: Me, v: View)
    requires forall p :: Calm(me, v, p)
    ensures Calm(me, v, AtIntake) && Calm(me, v, AtClaimCommit) && Calm(me, v, AtReset) && Calm(me, v, AtChunk)
    ensures Calm(me, v, AtLookup) && Calm(me, v, AtCommit) && Calm(me, v, AtRound) && Calm(me, v, AtCompletion)
  {
  }

  lemma StepOnTheWay(c: Config, me: Me, v: View, a: Action)
    requires v.place.In? && Ready(c, me, v, a) && Undisturbed(c, me, v) && OnTheWay(v.place)
    ensures OnTheWay(AfterStep(c, me, v, a).place)
  {
    NoFaults(me, v);
    hide NothingToCorrect, Stands, SeenBefore, Others, Collides, AfterIntake, AfterChunkStep, AfterEnding;
    match a
    case Intake(_, x) => IntakeOnTheWay(c, me, v, x);
    case Chunk(_, x) => ChunkOnTheWay(c, me, v, x);
    case Ending(_, x) => assert false;
  }

  lemma IntakeOnTheWay(c: Config, me: Me, v: View, x: IntakeAction)
    requires IntakeReady(c, me, v, x) && Calm(me, v, AtIntake) && Calm(me, v, AtClaimCommit)
    ensures OnTheWay(AfterIntake(c, me, v, x).place)
  {
  }

  lemma ChunkOnTheWay(c: Config, me: Me, v: View, x: ChunkAction)
    requires v.place.In? && ChunkReady(c, me, v, x) && OwnedIn(c, v, v.place.phase.claim)
    requires v.place.phase.Conflicted? ==> !NothingToCorrect(v)
    ensures OnTheWay(AfterChunkStep(c, me, v, x).place)
  {
    if x.Reclassify? {
      RaceGivesUpExactly(c, v);
    }
    hide NothingToCorrect, Stands, SeenBefore, Others, Reclassified, ValidCodes, CodeSet, Collides, Judge;
  }

  /** So whatever keeps a delivery from completion, short of finding nothing to claim, disturbs a step of its own. */
  lemma {:induction false} OnlyDisturbancesEndARun(c: Config, me: Me, steps: seq<Entry>, v: View, v': View)
    returns (i: nat)
    requires Walk(c, me, steps, v, v') && OnTheWay(v.place) && !OnTheWay(v'.place)
    ensures i < |steps| && steps[i].action.Some? && OnTheWay(steps[i].before.place)
    ensures !Undisturbed(c, me, steps[i].before) && !OnTheWay(steps[i].after.place)
  {
    hide Walk, OnTheWay, Undisturbed, Ready, AfterStep, AfterTurn;
    WalkEnds(c, me, steps, v, v');
    assert steps != [];
    var n := |steps| - 1;
    WalkAt(c, me, steps, v, v', n);
    WalkFront(c, me, steps, v, v');
    if !OnTheWay(steps[n].before.place) {
      i := OnlyDisturbancesEndARun(c, me, steps[..n], v, ViewAt(steps, v, n));
    } else if steps[n].action.None? {
      TurnKeepsPlace(c, me, steps[n].before);
    } else {
      i := n;
      if Undisturbed(c, me, steps[n].before) {
        StepOnTheWay(c, me, steps[n].before, steps[n].action.value);
      }
    }
  }

  // --- Worlds that do not disturb ---------------------------------------------------------------

  /** The others leave an owner its import, and the codes that are stored. */
  predicate Spares(id: ImportId, token: Token, t: Tables, t': Tables) {
    && (id in t.jobs && J.Owned(t.jobs[id], token) ==> id in t'.jobs && J.Owned(t'.jobs[id], token))
    && CodeSet(t.shipments) <= CodeSet(t'.shipments)
  }

  /** No fault strikes, the file can be read, no row is refused but for its code, and the others spare the worker. */
  ghost predicate Kind(world: World, id: ImportId, token: Token) {
    && (forall n, p :: world.fault(n, p).None?) && (forall n :: world.unreadable(n).None?)
    && (forall n, s :: !world.refused(n, s))
    && (forall n, t :: Spares(id, token, t, Turn(world, id, token, n, t)))
  }

  /** The worker owns its import and is at work, or has completed it. */
  predicate Thrives(c: Config, me: Me, v: View) {
    match v.place
    case Out(how) => how.Completed?
    case In(phase) =>
      && Working(phase) && phase.claim.token == me.token && OwnedIn(c, v, phase.claim)
      && (phase.Conflicted? ==> !NothingToCorrect(v))
  }

  lemma ThrivesByTurn(c: Config, me: Me, v: View)
    requires Kind(me.world, c.id, me.token) && Thrives(c, me, v)
    ensures Thrives(c, me, AfterTurn(c, me, v))
  {
    var t := Tables(v.jobs, v.shipments, v.errors);
    assert Spares(c.id, me.token, t, Turn(me.world, c.id, me.token, v.turn, t));
    hide Turn, CodeSet, ValidCodes;
  }

  lemma CollisionHasItsCode(c: Config, me: Me, v: View)
    requires Kind(me.world, c.id, me.token) && Standing(c, v) && v.place.phase.LookedUp? && Colliding(me, v)
    ensures !(ValidCodes(v.place.phase.result.validRows) !! CodeSet(v.shipments))
  {
    var phase := v.place.phase;
    StandingSuccess(c.id, c.chunks[phase.done], SeenBefore(c, phase.done), phase.found, phase.result);
    hide Stands, SeenBefore, ValidCodes, CodeSet, DistinctCodes;
  }

  lemma ThrivesByStep(c: Config, me: Me, v: View, a: Action)
    requires Kind(me.world, c.id, me.token) && Thrives(c, me, v) && v.place.In? && Ready(c, me, v, a)
    ensures Thrives(c, me, AfterStep(c, me, v, a))
  {
    assert forall p: Point :: Calm(me, v, p);
    NoFaults(me, v);
    hide Kind, NothingToCorrect, Stands, SeenBefore, Others, Collides, AfterChunkStep, AfterEnding;
    match a
    case Chunk(_, x) => ThrivesByChunk(c, me, v, x);
    case Ending(_, x) => assert false;
  }

  lemma ThrivesByChunk(c: Config, me: Me, v: View, x: ChunkAction)
    requires Kind(me.world, c.id, me.token) && Thrives(c, me, v) && v.place.In? && ChunkReady(c, me, v, x)
    ensures Thrives(c, me, AfterChunkStep(c, me, v, x))
  {
    if x.Reclassify? {
      RaceGivesUpExactly(c, v);
    } else if x.IntegrityFails? {
      CollisionHasItsCode(c, me, v);
    }
    hide Kind, Stands, SeenBefore, Others, Reclassified, ValidCodes, CodeSet, Collides, Judge;
  }

  lemma {:induction false} ThrivesAlong(c: Config, me: Me, steps: seq<Entry>, v: View, v': View, k: nat, n: nat)
    requires Walk(c, me, steps, v, v') && k <= n <= |steps|
    requires Kind(me.world, c.id, me.token) && Thrives(c, me, ViewAt(steps, v, k))
    ensures Thrives(c, me, ViewAt(steps, v, n))
    decreases n
  {
    hide Walk, Thrives, Kind, Ready, AfterStep, AfterTurn;
    if k < n {
      ThrivesAlong(c, me, steps, v, v', k, n - 1);
      WalkAt(c, me, steps, v, v', n - 1);
      var e := steps[n - 1];
      if e.action.None? {
        ThrivesByTurn(c, me, e.before);
      } else {
        AtWork(c, me, e);
        ThrivesByStep(c, me, e.before, e.action.value);
      }
    }
  }

  lemma AtWork(c: Config, me: Me, e: Entry)
    requires Recorded(c, me, e) && e.action.Some?
    ensures e.before.place.In? && Ready(c, me, e.before, e.action.value)
    ensures e.after == AfterStep(c, me, e.before, e.action.value)
  {
    hide Ready, AfterStep;
  }

  /** A worker that has its import in a kind world keeps it, and its journal can end in nothing but completion. */
  lemma KindWorldCompletes(c: Config, log: Log, v: View, log': Log, v': View)
    requires Kept(c, log, v) && Continues(c, log, log', v')
    requires Kind(log.me.world, c.id, log.me.token) && Thrives(c, log.me, v)
    ensures Thrives(c, log.me, v')
  {
    hide Walk, Thrives, Kind;
    WalkEnds(c, log.me, log.steps, log.start, v);
    WalkEnds(c, log.me, log'.steps, log.start, v');
    ThrivesAlong(c, log.me, log'.steps, log.start, v', |log.steps|, |log'.steps|);
  }
}
