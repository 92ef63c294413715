/**
 * All imports together. Each import steps by its own lifecycle, and what it sees of the others is
 * exactly the codes they have stored, so everything proved of one import holds of every import.
 */
module Fleet {
  import opened Domain
  import opened Lifecycle
  import opened LifecycleInvariant
  import opened Accounting
  import opened LifecycleRuns
  import O = Outbox

  datatype Import = Import(config: Config, state: State)

  type Fleet = map<ImportId, Import>

  function StoredCodes(imp: Import): set<Code> {
    CodeSet(imp.state.stored.shipments)
  }

  /** The codes held by the imports other than `id`. */
  function HeldByOthers(fleet: Fleet, id: ImportId): set<Code> {
    set other, code | other in fleet && other != id && code in StoredCodes(fleet[other]) :: code
  }

  /** A step sees the shipments table as it is: lookups and the unique constraint cover all imports. */
  predicate SeesTable(a: Action, held: set<Code>) {
    match a
    case Chunk(_, LookUpChunk(others)) => others == held
    case Chunk(_, PersistChunk(others, _)) => others == held
    case Chunk(_, Reclassify(others)) => others == held
    case _ => true
  }

  datatype FleetAction = Create(imp: Import, e: O.EventId, now: nat) | Step(id: ImportId, a: Action)

  predicate FleetEnabled(fleet: Fleet, a: FleetAction) {
    match a
    case Create(imp, e, now) =>
      Configured(imp.config) && imp.config.id !in fleet && Created(imp.config, imp.state, e, now)
    case Step(id, x) =>
      id in fleet && Enabled(fleet[id].config, fleet[id].state, x) && SeesTable(x, HeldByOthers(fleet, id))
  }

  function FleetNext(fleet: Fleet, a: FleetAction): Fleet
    requires FleetEnabled(fleet, a)
  {
    match a
    case Create(imp, _, _) => fleet[imp.config.id := imp]
    case Step(id, x) => fleet[id := fleet[id].(state := Next(fleet[id].config, fleet[id].state, x))]
  }

  ghost predicate FleetRun(fleets: seq<Fleet>, actions: seq<FleetAction>) {
    && |fleets| == |actions| + 1
    && fleets[0] == map[]
    && forall i :: 0 <= i < |actions| ==>
         FleetEnabled(fleets[i], actions[i]) && fleets[i + 1] == FleetNext(fleets[i], actions[i])
  }

  /** Every import is in a reachable state of its own lifecycle. */
  ghost predicate EachReachable(fleet: Fleet) {
    forall id | id in fleet ::
      fleet[id].config.id == id && Configured(fleet[id].config) && Reachable(fleet[id].config, fleet[id].state)
  }

  /** No code is stored twice, by one import or by two. */
  predicate CodesUnique(fleet: Fleet) {
    && (forall id | id in fleet :: DistinctCodes(fleet[id].state.stored.shipments))
    && (forall id, other | id in fleet && other in fleet && id != other ::
          StoredCodes(fleet[id]) !! StoredCodes(fleet[other]))
  }

  lemma StepReachable(fleet: Fleet, id: ImportId, a: Action)
    requires EachReachable(fleet) && FleetEnabled(fleet, Step(id, a))
    ensures EachReachable(FleetNext(fleet, Step(id, a)))
  {
    ReachableNext(fleet[id].config, fleet[id].state, a);
  }

  lemma CreateReachable(fleet: Fleet, imp: Import, e: O.EventId, now: nat)
    requires EachReachable(fleet) && FleetEnabled(fleet, Create(imp, e, now))
    ensures EachReachable(FleetNext(fleet, Create(imp, e, now)))
  {
    ReachableCreated(imp.config, imp.state, e, now);
  }

  /** A new import has stored nothing. */
  lemma CreateKeepsUnique(fleet: Fleet, imp: Import, e: O.EventId, now: nat)
    requires CodesUnique(fleet) && FleetEnabled(fleet, Create(imp, e, now))
    ensures CodesUnique(FleetNext(fleet, Create(imp, e, now)))
  {
    assert StoredCodes(imp) == {} && DistinctCodes(imp.state.stored.shipments);
    hide StoredCodes, DistinctCodes, FleetEnabled;
  }

  /** A step adds only codes that no other import holds. */
  lemma StepAddsFreeCodes(c: Config, s: State, a: Action, held: set<Code>)
    requires Enabled(c, s, a) && SeesTable(a, held) && CodeSet(s.stored.shipments) !! held
    ensures CodeSet(Next(c, s, a).stored.shipments) !! held
  {
    match a
    case ByPublisher(_) => hide BoxNext, Exhausts;
    case ByBroker(_) =>
    case Intake(w, x) => IntakeFrames(c, s, w, x);
    case Chunk(w, x) =>
      hide Looked, Raced;
      if x.PersistChunk? {
        var added := s.workers[w].phase.result.shipments;
        assert forall t | t in s.stored.shipments + added :: t in s.stored.shipments || t in added;
      }
    case Ending(w, x) => EndingFrames(c, s, w, x);
    case ByWatchdog(_, _, _) =>
  }

  lemma HeldMeaning(fleet: Fleet, id: ImportId)
    ensures forall other | other in fleet && other != id :: StoredCodes(fleet[other]) <= HeldByOthers(fleet, id)
    ensures CodesUnique(fleet) && id in fleet ==> StoredCodes(fleet[id]) !! HeldByOthers(fleet, id)
  {
  }

  lemma CodesUniqueKept(fleet: Fleet, id: ImportId, a: Action)
    requires EachReachable(fleet) && CodesUnique(fleet) && FleetEnabled(fleet, Step(id, a))
    ensures CodesUnique(FleetNext(fleet, Step(id, a)))
  {
    hide Next, Enabled, Inv, AccountInv, StoredInv, HeldByOthers, DistinctCodes, CodesUnique;
    var imp := fleet[id];
    HeldMeaning(fleet, id);
    StepAddsFreeCodes(imp.config, imp.state, a, HeldByOthers(fleet, id));
    ReachableNext(imp.config, imp.state, a);
    var s' := Next(imp.config, imp.state, a);
    ReachableInv(imp.config, s');
    InvParts(imp.config, s');
    AccountParts(imp.config, s');
    OwnCodesSeen(imp.config, s');
    UniqueAfter(fleet, FleetNext(fleet, Step(id, a)), id);
  }

  lemma UniqueAfter(fleet: Fleet, fleet': Fleet, id: ImportId)
    requires CodesUnique(fleet) && id in fleet && id in fleet' && fleet' == fleet[id := fleet'[id]]
    requires DistinctCodes(fleet'[id].state.stored.shipments)
    requires StoredCodes(fleet'[id]) !! HeldByOthers(fleet, id)
    ensures CodesUnique(fleet')
  {
    HeldMeaning(fleet, id);
    hide StoredCodes, HeldByOthers, DistinctCodes;
  }

  lemma FleetStart(fleets: seq<Fleet>, actions: seq<FleetAction>)
    requires FleetRun(fleets, actions)
    ensures EachReachable(fleets[0]) && CodesUnique(fleets[0])
  {
    hide FleetNext, FleetEnabled;
  }

  lemma FleetRunStep(fleets: seq<Fleet>, actions: seq<FleetAction>, k: nat)
    requires FleetRun(fleets, actions) && k + 1 < |fleets|
    ensures k < |actions| && FleetEnabled(fleets[k], actions[k]) && fleets[k + 1] == FleetNext(fleets[k], actions[k])
  {
    hide FleetNext, FleetEnabled;
  }

  /** Along every run of the whole system, each import lives its own lifecycle and all stored codes differ. */
  lemma {:induction false} FleetInvariant(fleets: seq<Fleet>, actions: seq<FleetAction>, n: nat)
    requires FleetRun(fleets, actions) && n < |fleets|
    ensures EachReachable(fleets[n]) && CodesUnique(fleets[n])
  {
    hide *;
    if n == 0 {
      FleetStart(fleets, actions);
    } else {
      FleetRunStep(fleets, actions, n - 1);
      FleetInvariant(fleets, actions, n - 1);
      match actions[n - 1]
      case Create(imp, e, now) =>
        CreateReachable(fleets[n - 1], imp, e, now);
        CreateKeepsUnique(fleets[n - 1], imp, e, now);
      case Step(id, a) =>
        StepReachable(fleets[n - 1], id, a);
        CodesUniqueKept(fleets[n - 1], id, a);
    }
  }
}
