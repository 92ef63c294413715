/**
 * The tables as one session sees them. A repository method runs inside a transaction of its caller; what other
 * processes commit between transactions is `OtherProcesses`, and it is for the world to say.
 */
module Database {
  import opened Domain
  import J = ImportJobs
  import O = Outbox

  /** The rows of one import, and those of all others, in table order. */
  function ShipmentsIn(id: ImportId, rows: seq<Shipment>): seq<Shipment> {
    if rows == [] then []
    else
      var n := |rows| - 1;
      ShipmentsIn(id, rows[..n]) + if rows[n].importId == id then [rows[n]] else []
  }

  function ShipmentsOutside(id: ImportId, rows: seq<Shipment>): seq<Shipment> {
    if rows == [] then []
    else
      var n := |rows| - 1;
      ShipmentsOutside(id, rows[..n]) + if rows[n].importId == id then [] else [rows[n]]
  }

  function ErrorsIn(id: ImportId, rows: seq<ErrorRow>): seq<ErrorRow> {
    if rows == [] then []
    else
      var n := |rows| - 1;
      ErrorsIn(id, rows[..n]) + if rows[n].importId == id then [rows[n]] else []
  }

  function ErrorsOutside(id: ImportId, rows: seq<ErrorRow>): seq<ErrorRow> {
    if rows == [] then []
    else
      var n := |rows| - 1;
      ErrorsOutside(id, rows[..n]) + if rows[n].importId == id then [] else [rows[n]]
  }

  /** Inserted rows come after the stored ones. */
  lemma {:induction false} ShipmentsInConcat(id: ImportId, a: seq<Shipment>, b: seq<Shipment>)
    ensures ShipmentsIn(id, a + b) == ShipmentsIn(id, a) + ShipmentsIn(id, b)
    decreases |b|
  {
    if b == [] {
      assert a + b == a;
    } else {
      var n := |b| - 1;
      assert (a + b)[..|a + b| - 1] == a + b[..n];
      ShipmentsInConcat(id, a, b[..n]);
    }
  }

  lemma {:induction false} ErrorsInConcat(id: ImportId, a: seq<ErrorRow>, b: seq<ErrorRow>)
    ensures ErrorsIn(id, a + b) == ErrorsIn(id, a) + ErrorsIn(id, b)
    decreases |b|
  {
    if b == [] {
      assert a + b == a;
    } else {
      var n := |b| - 1;
      assert (a + b)[..|a + b| - 1] == a + b[..n];
      ErrorsInConcat(id, a, b[..n]);
    }
  }

  lemma {:induction false} ShipmentsAllIn(id: ImportId, rows: seq<Shipment>)
    requires forall s | s in rows :: s.importId == id
    ensures ShipmentsIn(id, rows) == rows
  {
    if rows != [] {
      ShipmentsAllIn(id, rows[..|rows| - 1]);
    }
  }

  lemma {:induction false} ErrorsAllIn(id: ImportId, rows: seq<ErrorRow>)
    requires forall e | e in rows :: e.importId == id
    ensures ErrorsIn(id, rows) == rows
  {
    if rows != [] {
      ErrorsAllIn(id, rows[..|rows| - 1]);
    }
  }

  /** Deleting an import's rows leaves it none, and every other import all of its rows. */
  lemma {:induction false} DeletedShipments(id: ImportId, rows: seq<Shipment>, other: ImportId)
    ensures ShipmentsIn(other, ShipmentsOutside(id, rows)) == if other == id then [] else ShipmentsIn(other, rows)
  {
    if rows != [] {
      var n := |rows| - 1;
      DeletedShipments(id, rows[..n], other);
      if rows[n].importId != id {
        ShipmentsInConcat(other, ShipmentsOutside(id, rows[..n]), [rows[n]]);
      } else {
        assert ShipmentsOutside(id, rows) == ShipmentsOutside(id, rows[..n]);
      }
    }
  }

  lemma {:induction false} DeletionKeepsDistinct(id: ImportId, rows: seq<Shipment>)
    ensures CodeSet(ShipmentsOutside(id, rows)) <= CodeSet(rows)
    ensures forall s | s in ShipmentsOutside(id, rows) :: s in rows
    ensures DistinctCodes(rows) ==> DistinctCodes(ShipmentsOutside(id, rows))
  {
    if rows != [] {
      var front, last := rows[..|rows| - 1], rows[|rows| - 1];
      DeletionKeepsDistinct(id, front);
      assert rows == front + [last];
      DistinctSnoc(front, last);
      DistinctSnoc(ShipmentsOutside(id, front), last);
    }
  }

  lemma DistinctSnoc(rows: seq<Shipment>, s: Shipment)
    ensures CodeSet(rows + [s]) == CodeSet(rows) + {s.draft.code}
    ensures DistinctCodes(rows + [s]) <==> DistinctCodes(rows) && s.draft.code !in CodeSet(rows)
  {
    var all := rows + [s];
    assert forall i :: 0 <= i < |rows| ==> all[i] == rows[i];
    assert all[|rows|] == s;
    assert forall t | t in all :: t in rows || t == s;
    assert forall t | t in rows :: t in all;
    if DistinctCodes(all) {
      forall t | t in rows ensures t.draft.code != s.draft.code {
        var i :| 0 <= i < |rows| && rows[i] == t;
        assert all[i].draft.code != all[|rows|].draft.code;
      }
    }
    if DistinctCodes(rows) && s.draft.code !in CodeSet(rows) {
      assert forall i :: 0 <= i < |rows| ==> rows[i] in rows;
    }
  }

  lemma {:induction false} DeletedErrors(id: ImportId, rows: seq<ErrorRow>, other: ImportId)
    ensures ErrorsIn(other, ErrorsOutside(id, rows)) == if other == id then [] else ErrorsIn(other, rows)
  {
    if rows != [] {
      var n := |rows| - 1;
      DeletedErrors(id, rows[..n], other);
      if rows[n].importId != id {
        ErrorsInConcat(other, ErrorsOutside(id, rows[..n]), [rows[n]]);
      } else {
        assert ErrorsOutside(id, rows) == ErrorsOutside(id, rows[..n]);
      }
    }
  }

  // --- What others may do meanwhile -------------------------------------------------------------

  /**
   * What a worker with this token relies on, whatever runs between its transactions: its import's row
   * stays; if the row is still owned it is as it was, and so are the import's shipments and errors; lost
   * ownership does not come back.
   */
  predicate Relied(token: Token, job: J.Job, shipments: seq<Shipment>, errors: seq<ErrorRow>,
                   job': J.Job, shipments': seq<Shipment>, errors': seq<ErrorRow>) {
    J.Owned(job', token) ==> job' == job && shipments' == shipments && errors' == errors
  }

  datatype Tables = Tables(jobs: map<ImportId, J.Job>, shipments: seq<Shipment>, errors: seq<ErrorRow>)

  /** The tables and the outbox. */
  datatype Store = Store(tables: Tables, events: map<O.EventId, O.Event>)

  /** The tables before and after others ran, as far as a worker on import `id` can rely on them. */
  predicate MayBecome(id: ImportId, token: Token, t: Tables, t': Tables) {
    && id in t.jobs && id in t'.jobs && DistinctCodes(t'.shipments)
    && Relied(token, t.jobs[id], ShipmentsIn(id, t.shipments), ErrorsIn(id, t.errors),
              t'.jobs[id], ShipmentsIn(id, t'.shipments), ErrorsIn(id, t'.errors))
    && (J.Owned(t'.jobs[id], token) ==> J.Owned(t.jobs[id], token))
  }

  predicate EventsRelied(mine: set<Token>, events: map<O.EventId, O.Event>, events': map<O.EventId, O.Event>) {
    && (forall e | e in events :: e in events' && events[e].attemptCount <= events'[e].attemptCount)
    && (forall e | e in events && O.Settled(events[e]) :: events'[e] == events[e])
    && (forall e | e in events' && O.HeldByAny(events'[e], mine) :: e in events && events'[e] == events[e])
  }

  /** The process whose lock on an import's row makes a claim skip it. */
  datatype Holder = HeldByWorker(w: nat) | HeldByPublisher(token: Token)

  /** A failure from outside: of the database, or any other. */
  datatype Fault = DatabaseFault | OtherFault

  /** Where a worker's run may meet a fault. */
  datatype Point =
    | AtIntake
    | AtClaimCommit
    | AtReset
    | AtChunk
    | AtLookup
    | AtCommit
    | AtRound
    | AtCompletion
    | AtHandler

  /**
   * Everything that is not for a session to decide, turn by turn: what the other processes make of the tables and of
   * the outbox they find, who locks the row of the import, which faults occur, whether the file can be read on, which
   * rows the database refuses for another reason than their code, whether the broker takes a message, and the time.
   * Nothing is known of a world, and nothing that a session does can change it.
   */
  datatype World = World(
    others: (nat, Tables) -> Tables,
    publishers: (nat, Store) -> Store,
    lock: nat -> Option<Holder>,
    fault: (nat, Point) -> Option<Fault>,
    unreadable: nat -> Option<string>,
    refused: (nat, Shipment) -> bool,
    dispatch: (nat, ImportId) -> Option<string>,
    unsent: nat -> bool,
    clock: nat -> nat)

  /** The tables after a turn of the others. What a worker relies on is not theirs to break. */
  function Turn(world: World, id: ImportId, token: Token, n: nat, t: Tables): Tables {
    var t' := world.others(n, t);
    if MayBecome(id, token, t, t') then t' else t
  }

  /** Everything after a turn of the others, as a publisher with these tokens relies on it. */
  function OutboxTurn(world: World, mine: set<Token>, n: nat, s: Store): (r: Store)
    ensures EventsRelied(mine, s.events, r.events)
    ensures DistinctCodes(s.tables.shipments) ==> DistinctCodes(r.tables.shipments)
  {
    var s' := world.publishers(n, s);
    if EventsRelied(mine, s.events, s'.events) && DistinctCodes(s'.tables.shipments) then s' else s
  }

  /** Worlds are no narrower than that: whatever a worker may find after a turn of the others, some world does. */
  lemma EveryTurnIsPossible(world: World, id: ImportId, token: Token, n: nat, t: Tables, t': Tables)
    returns (other: World)
    requires MayBecome(id, token, t, t')
    ensures Turn(other, id, token, n, t) == t' && other.fault == world.fault && other.lock == world.lock
  {
    other := world.(others := (m, u) => t');
  }

  lemma EveryOutboxTurnIsPossible(world: World, mine: set<Token>, n: nat, s: Store, s': Store) returns (other: World)
    requires EventsRelied(mine, s.events, s'.events) && DistinctCodes(s'.tables.shipments)
    ensures OutboxTurn(other, mine, n, s) == s' && other.dispatch == world.dispatch
  {
    other := world.(publishers := (m, u) => s');
  }

  /** The codes that imports other than `id` have among these shipments. */
  function OthersCodes(id: ImportId, shipments: set<Shipment>): set<Code> {
    set s | s in shipments && s.importId != id :: s.draft.code
  }

  function CodesIn(shipments: set<Shipment>): set<Code> {
    set s | s in shipments :: s.draft.code
  }

  function AsSet(rows: seq<Shipment>): set<Shipment> {
    set s | s in rows
  }

  lemma OthersGrow(id: ImportId, shipments: set<Shipment>, shipments': set<Shipment>)
    requires shipments <= shipments'
    ensures OthersCodes(id, shipments) <= OthersCodes(id, shipments')
    ensures CodesIn(shipments) <= CodesIn(shipments')
  {
  }

  lemma {:induction false} OwnRowIsIn(id: ImportId, rows: seq<Shipment>, s: Shipment)
    requires s in rows && s.importId == id
    ensures s in ShipmentsIn(id, rows)
  {
    var n := |rows| - 1;
    if s != rows[n] {
      OwnRowIsIn(id, rows[..n], s);
    }
  }

  /** Codes that the import itself does not store are stored by others, if they are stored at all. */
  lemma StoredElsewhere(id: ImportId, rows: seq<Shipment>, codes: set<Code>)
    requires codes !! CodeSet(ShipmentsIn(id, rows))
    ensures codes * CodeSet(rows) <= OthersCodes(id, AsSet(rows))
  {
    forall code | code in codes * CodeSet(rows) ensures code in OthersCodes(id, AsSet(rows)) {
      var s :| s in rows && s.draft.code == code;
      if s.importId == id {
        OwnRowIsIn(id, rows, s);
      }
    }
  }

  /** `ever` are the shipments stored at any time so far, `turn` counts the turns of the others. */
  class Session {
    const world: World
    ghost var ever: set<Shipment>
    var turn: nat
    var jobs: map<ImportId, J.Job>
    var shipments: seq<Shipment>
    var errors: seq<ErrorRow>
    var events: map<O.EventId, O.Event>

    /** A session on empty tables. */
    constructor (world: World)
      ensures Valid() && this.world == world && turn == 0
    {
      this.world := world;
      ever, turn, jobs, shipments, errors, events := {}, 0, map[], [], [], map[];
    }

    /** The unique constraint on shipment codes. */
    ghost predicate Valid()
      reads this
    {
      DistinctCodes(shipments) && AsSet(shipments) <= ever
    }

    ghost predicate OwnedBy(id: ImportId, token: Token)
      reads this
    {
      id in jobs && J.Owned(jobs[id], token)
    }

    function Stored(): Store
      reads this
    {
      Store(Tables(jobs, shipments, errors), events)
    }

    /** Who locks the import's row at this moment, if anybody does. */
    function RowLock(): Option<Holder>
      reads this
    {
      world.lock(turn)
    }

    /**
     * Any number of transactions of other processes, as a publisher relies on them: an event held under one
     * of its tokens is as it was, settled events do not change, and no event forgets a recorded failure.
     */
    method OtherPublishers(mine: set<Token>)
      requires Valid()
      modifies this
      ensures Valid() && old(ever) <= ever && turn == old(turn) + 1
      ensures Stored() == OutboxTurn(world, mine, old(turn), old(Stored()))
    {
      var s := OutboxTurn(world, mine, turn, Stored());
      jobs, shipments, errors, events := s.tables.jobs, s.tables.shipments, s.tables.errors, s.events;
      ever, turn := ever + AsSet(shipments), turn + 1;
    }

    /** Any number of transactions of other processes: a turn of the world. */
    method OtherProcesses(id: ImportId, token: Token)
      requires Valid() && id in jobs
      modifies this
      ensures turn == old(turn) + 1
      ensures Tables(jobs, shipments, errors) == old(Turn(world, id, token, turn, Tables(jobs, shipments, errors)))
      ensures events == old(OutboxTurn(world, {}, turn, Stored())).events
      ensures Valid() && id in jobs && old(ever) <= ever
      ensures Relied(token, old(jobs[id]), old(ShipmentsIn(id, shipments)), old(ErrorsIn(id, errors)),
                     jobs[id], ShipmentsIn(id, shipments), ErrorsIn(id, errors))
      ensures !old(OwnedBy(id, token)) ==> !OwnedBy(id, token)
    {
      var t := Turn(world, id, token, turn, Tables(jobs, shipments, errors));
      events := OutboxTurn(world, {}, turn, Stored()).events;
      jobs, shipments, errors := t.jobs, t.shipments, t.errors;
      ever, turn := ever + AsSet(t.shipments), turn + 1;
    }
  }
}
