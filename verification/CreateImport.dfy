/**
 * create_import step by step: lock, lookups, insert, commit or rollback, with other calls running in
 * between. What one call relies on is what the lock protocol guarantees (CreateProtocol).
 */
module CreateImport {
  import opened Domain
  import opened CreateProtocol

  predicate KeysUnique(rows: seq<Row>) {
    forall i, j ::
            0 <= i < j < |rows| ==> rows[i].id != rows[j].id && (rows[i].key.Some? ==> rows[i].key != rows[j].key)
  }

  /** Rows are only appended, and while a call holds its lock, nobody else appends its fingerprint. */
  predicate Extends(rows: seq<Row>, rows': seq<Row>, guarded: Option<string>) {
    && rows <= rows'
    && (guarded.Some? ==> forall i :: |rows| <= i < |rows'| ==> rows'[i].fingerprint != guarded.value)
  }

  /** Unique keys, and one creation-time intent for each row. */
  predicate Consistent(rows: seq<Row>, intents: seq<ImportId>) {
    KeysUnique(rows) && |intents| == |rows| && forall i :: 0 <= i < |rows| ==> intents[i] == rows[i].id
  }

  /** What is not for a call to decide: the rows that the other calls add, and which writes and reads fail. */
  datatype World = World(others: (nat, seq<Row>) -> seq<Row>, fails: nat -> bool, unread: nat -> bool)

  /** The rows after a turn of the other calls, while this one holds the lock on `guarded`. */
  function Turn(world: World, n: nat, rows: seq<Row>, guarded: Option<string>): (rows': seq<Row>)
    ensures rows <= rows' && Extends(rows, rows', guarded)
    ensures KeysUnique(rows) ==> KeysUnique(rows')
  {
    var rows' := world.others(n, rows);
    if KeysUnique(rows') && Extends(rows, rows', guarded) then rows' else rows
  }

  /** Whatever a call may find after a turn of the others, some world does. */
  lemma EveryTurnIsPossible(world: World, n: nat, rows: seq<Row>, rows': seq<Row>, guarded: Option<string>)
    returns (other: World)
    requires KeysUnique(rows') && Extends(rows, rows', guarded)
    ensures Turn(other, n, rows, guarded) == rows' && other.fails == world.fails && other.unread == world.unread
  {
    other := world.(others := (m, u) => rows');
  }

  /** The rows after these turns, one for each pause of the call, with the lock that it holds meanwhile. */
  function Turns(world: World, n: nat, rows: seq<Row>, locks: seq<Option<string>>): seq<Row> {
    if locks == [] then rows
    else
      var last := |locks| - 1;
      Turn(world, n + last, Turns(world, n, rows, locks[..last]), locks[last])
  }

  lemma {:induction false} TurnsJoin(world: World, n: nat, rows: seq<Row>, a: seq<Option<string>>,
                                     b: seq<Option<string>>)
    ensures Turns(world, n, rows, a + b) == Turns(world, n + |a|, Turns(world, n, rows, a), b)
  {
    if b == [] {
      assert a + b == a;
    } else {
      assert (a + b)[..|a + b| - 1] == a + b[..|b| - 1];
      TurnsJoin(world, n, rows, a, b[..|b| - 1]);
    }
  }

  lemma OneTurn(world: World, n: nat, rows: seq<Row>, lock: Option<string>)
    ensures Turns(world, n, rows, [lock]) == Turn(world, n, rows, lock)
  {
    assert [lock][..0] == [];
    assert Turns(world, n, rows, [lock][..0]) == rows;
  }

  /** While a call holds its lock and pauses, the other calls only append rows with other fingerprints. */
  lemma {:induction false} LockCanBeReliedOn(
    hash: string -> int, states: seq<State>, actions: seq<Action>, i: nat, j: nat, call: CallId)
    requires Run(hash, states, actions) && i <= j < |states|
    requires call in states[i].calls && HoldsLock(states[i].calls[call].phase)
    requires forall k :: i <= k < j ==> actions[k].call != call
    ensures call in states[j].calls && states[j].calls[call] == states[i].calls[call]
    ensures Extends(states[i].rows, states[j].rows, Some(states[i].calls[call].request.fingerprint))
    decreases j - i
  {
    if i < j {
      LockCanBeReliedOn(hash, states, actions, i, j - 1, call);
      InvAlongRun(hash, states, actions, j - 1);
      OthersStepAppends(hash, states[j - 1], actions[j - 1], call);
      hide Next, Enabled, Inv;
    }
  }

  lemma OthersStepAppends(hash: string -> int, s: State, a: Action, call: CallId)
    requires Inv(hash, s) && Enabled(hash, s, a) && a.call != call
    requires call in s.calls && HoldsLock(s.calls[call].phase)
    ensures call in Next(hash, s, a).calls && Next(hash, s, a).calls[call] == s.calls[call]
    ensures Extends(s.rows, Next(hash, s, a).rows, Some(s.calls[call].request.fingerprint))
  {
    if a.Commit? {
      OthersInsertElsewhere(hash, s, call, a.call);
    }
  }

  /** How the insert ends: committed, refused by the unique key, or failed in any other way. */
  datatype Insertion = Inserted | KeyTaken | WriteFailed

  function IntentsOf(rows: seq<Row>): seq<ImportId> {
    seq(|rows|, i requires 0 <= i < |rows| => rows[i].id)
  }

  /** `turn` counts the turns of the other calls. */
  class JobTable {
    const world: World
    var turn: nat
    var rows: seq<Row>
    var intents: seq<ImportId>

    constructor (world: World)
      ensures Valid() && this.world == world && rows == [] && turn == 0
    {
      this.world, turn, rows, intents := world, 0, [], [];
    }

    ghost predicate Valid()
      reads this
    {
      Consistent(rows, intents)
    }

    /** Any number of transactions of other calls; `guarded` is the fingerprint whose lock this call holds. */
    method OtherCalls(guarded: Option<string>)
      requires Valid()
      modifies this
      ensures Valid() && turn == old(turn) + 1
      ensures rows == old(Turn(world, turn, rows, guarded))
    {
      rows, turn := Turn(world, turn, rows, guarded), turn + 1;
      intents := IntentsOf(rows);
    }

    method SnapshotByKey(key: string) returns (row: Option<Row>)
      ensures row == FindKey(rows, key)
    {
      var i := |rows|;
      assert rows[..i] == rows;
      while i > 0
        invariant 0 <= i <= |rows| && FindKey(rows[..i], key) == FindKey(rows, key)
      {
        assert rows[..i][..i - 1] == rows[..i - 1];
        if rows[i - 1].key == Some(key) {
          return Some(rows[i - 1]);
        }
        i := i - 1;
      }
      return None;
    }

    /** The newest row with this fingerprint. */
    method SnapshotByFingerprint(fingerprint: string) returns (row: Option<Row>)
      ensures row == FindFingerprint(rows, fingerprint)
    {
      var i := |rows|;
      assert rows[..i] == rows;
      while i > 0
        invariant 0 <= i <= |rows| && FindFingerprint(rows[..i], fingerprint) == FindFingerprint(rows, fingerprint)
      {
        assert rows[..i][..i - 1] == rows[..i - 1];
        if rows[i - 1].fingerprint == fingerprint {
          return Some(rows[i - 1]);
        }
        i := i - 1;
      }
      return None;
    }

    /** Insert the job and its intent and commit; a taken key, or any other failure, leaves nothing. */
    method InsertAndCommit(request: Request, id: ImportId) returns (flush: Insertion)
      requires Valid() && forall row | row in rows :: row.id != id
      modifies this`rows, this`intents
      ensures Valid()
      ensures flush == if world.fails(turn) then WriteFailed
                       else if request.key.Some? && FindKey(old(rows), request.key.value).Some? then KeyTaken
                       else Inserted
      ensures flush == Inserted ==>
                rows == old(rows) + [Row(id, request.key, request.fingerprint)] && intents == old(intents) + [id]
      ensures flush != Inserted ==> rows == old(rows) && intents == old(intents)
    {
      if world.fails(turn) {
        return WriteFailed;
      }
      var taken: Option<Row> := None;
      if request.key.Some? {
        taken := SnapshotByKey(request.key.value);
      }
      if taken.Some? {
        return KeyTaken;
      }
      AppendKeepsUnique(rows, Row(id, request.key, request.fingerprint));
      rows, intents := rows + [Row(id, request.key, request.fingerprint)], intents + [id];
      return Inserted;
    }
  }

  /** A uuid4 that no row has. */
  function FreshId(rows: seq<Row>): (id: ImportId)
    ensures forall row | row in rows :: row.id < id
  {
    if rows == [] then 0
    else
      var n := |rows| - 1;
      var id := FreshId(rows[..n]);
      assert forall row | row in rows :: row in rows[..n] || row == rows[n];
      if rows[n].id < id then id else rows[n].id + 1
  }

  lemma AppendKeepsUnique(rows: seq<Row>, row: Row)
    requires KeysUnique(rows) && forall r | r in rows :: r.id != row.id
    requires row.key.Some? ==> FindKey(rows, row.key.value).None?
    ensures KeysUnique(rows + [row])
  {
  }

  /** The row found by a unique key stays the one found. */
  lemma {:induction false} FoundKeyStays(rows: seq<Row>, rows': seq<Row>, key: string)
    requires rows <= rows' && KeysUnique(rows') && FindKey(rows, key).Some?
    ensures FindKey(rows', key) == FindKey(rows, key)
  {
    var row, row' := FindKey(rows, key).value, FindKey(rows', key);
    var i :| 0 <= i < |rows| && rows[i] == row;
    assert rows'[i] == row && row in rows';
    var j :| 0 <= j < |rows'| && rows'[j] == row'.value;
  }

  lemma FoundFingerprintStays(rows: seq<Row>, rows': seq<Row>, fingerprint: string)
    requires rows <= rows' && FindFingerprint(rows', fingerprint).None?
    ensures FindFingerprint(rows, fingerprint).None?
  {
    forall row | row in rows ensures row.fingerprint != fingerprint {
      var i :| 0 <= i < |rows| && rows[i] == row;
      assert rows'[i] in rows';
    }
  }

  lemma NoSuchFingerprint(rows: seq<Row>, rows': seq<Row>, fingerprint: string)
    requires Extends(rows, rows', Some(fingerprint)) && FindFingerprint(rows, fingerprint).None?
    ensures FindFingerprint(rows', fingerprint).None?
  {
    forall row | row in rows' ensures row.fingerprint != fingerprint {
      var i :| 0 <= i < |rows'| && rows'[i] == row;
      if i < |rows| {
        assert rows[i] in rows;
      }
    }
  }

  /** An atomic call answers by the key if it is taken; with key and fingerprint free it creates. */
  lemma AtomicAnswers(rows: seq<Row>, request: Request, id: ImportId)
    ensures request.key.Some? && FindKey(rows, request.key.value).Some? ==>
              Atomic(rows, request, id) == ExistingOrConflict(FindKey(rows, request.key.value).value, request)
    ensures ((request.key.Some? ==> FindKey(rows, request.key.value).None?)
             && FindFingerprint(rows, request.fingerprint).None?) ==>
              Atomic(rows, request, id) == Created(id)
  {
  }

  /** With the fingerprint free, the row that has the key belongs to another upload. */
  lemma CollidingRow(rows: seq<Row>, request: Request)
    requires request.key.Some? && FindKey(rows, request.key.value).Some?
    requires FindFingerprint(rows, request.fingerprint).None?
    ensures ExistingOrConflict(FindKey(rows, request.key.value).value, request) == KeyConflict
  {
  }

  /** What a later lookup does not find was not there before either. */
  lemma NotKnownBefore(before: seq<Row>, looked: seq<Row>, request: Request)
    requires before <= looked && KeysUnique(looked)
    ensures FindFingerprint(looked, request.fingerprint).None? ==>
              FindFingerprint(before, request.fingerprint).None?
    ensures request.key.Some? && FindKey(looked, request.key.value).None? ==>
              FindKey(before, request.key.value).None?
  {
    if FindFingerprint(looked, request.fingerprint).None? {
      FoundFingerprintStays(before, looked, request.fingerprint);
    }
    hide FindFingerprint;
    if request.key.Some? && FindKey(before, request.key.value).Some? {
      FoundKeyStays(before, looked, request.key.value);
    }
  }

  class CreateImportService {
    const table: JobTable

    constructor (table: JobTable)
      ensures this.table == table
    {
      this.table := table;
    }

    /**
     * Whatever other calls do meanwhile, the outcome is that of one atomic check-then-insert on some table `at`
     * between the call's start and its end. A creation adds one row, with one intent, right after `at`; whatever else
     * is new was added by the turns of the other calls. No reply: the job is committed, but reading it back raised.
     *
     * A write error comes from the write alone: neither the key nor the upload was known when the call looked.
     */
    method CreateImport(request: Request)
      returns (reply: Option<Outcome>, ghost outcome: Outcome, ghost at: seq<Row>, ghost id: ImportId,
               ghost locks: seq<Option<string>>)
      requires table.Valid()
      modifies table
      ensures table.Valid() && old(table.rows) <= at <= table.rows
      ensures !outcome.WriteError? ==> outcome == Atomic(at, request, id)
      ensures outcome.WriteError? ==>
                && table.world.fails(table.turn)
                && FindFingerprint(at, request.fingerprint).None?
                && (request.key.Some? ==> FindKey(at, request.key.value).None?)
      ensures FindFingerprint(old(table.rows), request.fingerprint).Some? ==> !outcome.WriteError?
      ensures request.key.Some? && FindKey(old(table.rows), request.key.value).Some? ==> !outcome.WriteError?
      ensures table.turn == old(table.turn) + |locks|
      ensures forall i :: 0 <= i < |locks| ==> locks[i] in {None, Some(request.fingerprint)}
      ensures var others := Turns(table.world, old(table.turn), old(table.rows), locks);
              if outcome.Created? then others == at && table.rows == at + [Row(id, request.key, request.fingerprint)]
              else table.rows == others
      ensures reply == if outcome.Created? && table.world.unread(table.turn) then None else Some(outcome)
    {
      hide Atomic, FindKey, FindFingerprint, FreshId, Turn, Turns, KeysUnique, Extends, IntentsOf;
      ghost var world, turn, before := table.world, table.turn, table.rows;
      id, locks := 0, [None];
      table.OtherCalls(None);
      OneTurn(world, turn, before, None);
      // From here to the end of the transaction this call holds the lock on its fingerprint.
      at := table.rows;
      ghost var looked := at;
      if request.key.Some? {
        var existing := table.SnapshotByKey(request.key.value);
        AtomicAnswers(at, request, id);
        if existing.Some? {
          var answer := ExistingOrConflict(existing.value, request);
          return Some(answer), answer, at, id, locks;
        }
      }
      ghost var more;
      reply, outcome, at, id, more := CheckAndInsert(request);
      TurnsJoin(world, turn, before, locks, more);
      locks := locks + more;
      NotKnownBefore(before, looked, request);
    }

    /** What follows the lookup of the key: the lookup of the upload, and the insert. */
    method CheckAndInsert(request: Request)
      returns (reply: Option<Outcome>, ghost outcome: Outcome, ghost at: seq<Row>, ghost id: ImportId,
               ghost locks: seq<Option<string>>)
      requires table.Valid() && (request.key.Some? ==> FindKey(table.rows, request.key.value).None?)
      modifies table
      ensures table.Valid() && old(table.rows) <= at <= table.rows
      ensures !outcome.WriteError? ==> outcome == Atomic(at, request, id)
      ensures outcome.WriteError? ==>
                && table.world.fails(table.turn) && at == old(table.rows)
                && FindFingerprint(at, request.fingerprint).None?
      ensures table.turn == old(table.turn) + |locks|
      ensures forall i :: 0 <= i < |locks| ==> locks[i] in {None, Some(request.fingerprint)}
      ensures var others := Turns(table.world, old(table.turn), old(table.rows), locks);
              if outcome.Created? then others == at && table.rows == at + [Row(id, request.key, request.fingerprint)]
              else table.rows == others
      ensures reply == if outcome.Created? && table.world.unread(table.turn) then None else Some(outcome)
    {
      hide Atomic, FindKey, FindFingerprint, FreshId, Turn, Turns, KeysUnique, IntentsOf;
      ghost var world, turn, before, lock := table.world, table.turn, table.rows, Some(request.fingerprint);
      id, at, locks := 0, before, [lock];
      OneTurn(world, turn, before, lock);
      table.OtherCalls(Some(request.fingerprint));
      var existing := table.SnapshotByFingerprint(request.fingerprint);
      if existing.Some? {
        DuplicateWasSeen(table.rows, at, request, id);
        return Some(Duplicate(existing.value.id)), Duplicate(existing.value.id), at, id, locks;
      }
      ghost var looked := table.rows;
      FoundFingerprintStays(before, looked, request.fingerprint);
      table.OtherCalls(Some(request.fingerprint));
      OneTurn(world, turn + 1, looked, lock);
      TurnsJoin(world, turn, before, [lock], [lock]);
      locks := [lock] + [lock];
      NoSuchFingerprint(looked, table.rows, request.fingerprint);
      ghost var inserting := table.rows;
      var inserted: Outcome;
      inserted, at, id := Insert(request);
      if inserted.WriteError? {
        at := before;
      } else if inserted.KeyConflict? {
        OneTurn(world, turn + 2, inserting, None);
        TurnsJoin(world, turn, before, locks, [None]);
        locks := locks + [None];
      }
      var unread := table.world.unread(table.turn);
      return if inserted.Created? && unread then None else Some(inserted), inserted, at, id, locks;
    }

    /** The insert, under the lock and with the fingerprint free; a collision on the key is always a conflict. */
    method Insert(request: Request) returns (outcome: Outcome, ghost at: seq<Row>, ghost id: ImportId)
      requires table.Valid() && FindFingerprint(table.rows, request.fingerprint).None?
      modifies table
      ensures table.Valid() && old(table.rows) <= at <= table.rows
      ensures outcome == if table.world.fails(old(table.turn)) then WriteError
                         else if request.key.Some? && FindKey(old(table.rows), request.key.value).Some? then KeyConflict
                         else Created(id)
      ensures !outcome.WriteError? ==> outcome == Atomic(at, request, id)
      ensures outcome.Created? ==>
                && at == old(table.rows) && table.rows == at + [Row(id, request.key, request.fingerprint)]
                && table.intents == old(table.intents) + [id]
      ensures outcome.WriteError? ==> table.rows == old(table.rows)
      ensures outcome.KeyConflict? ==> table.rows == Turn(table.world, old(table.turn), old(table.rows), None)
      ensures table.turn == old(table.turn) + if outcome.KeyConflict? then 1 else 0
    {
      hide Atomic, FindKey, FindFingerprint, FreshId, Turn;
      at := table.rows;
      var uuid := FreshId(table.rows);
      id := uuid;
      AtomicAnswers(at, request, id);
      var flush := table.InsertAndCommit(request, uuid);
      match flush
      case Inserted => return Created(uuid), at, id;
      case WriteFailed => return WriteError, at, id;
      case KeyTaken =>
        // The rollback has released the lock. The key's row has another fingerprint, and stays.
        ghost var collided := table.rows;
        CollidingRow(collided, request);
        table.OtherCalls(None);
        outcome := AfterRollback(request);
        FoundKeyStays(collided, table.rows, request.key.value);
        at := table.rows;
        AtomicAnswers(at, request, id);
    }

    /** The lookup after the rollback of a collision. */
    method AfterRollback(request: Request) returns (outcome: Outcome)
      ensures outcome ==
              if request.key.None? || FindKey(table.rows, request.key.value).None? then WriteError
              else ExistingOrConflict(FindKey(table.rows, request.key.value).value, request)
    {
      if request.key.None? {
        return WriteError;
      }
      var existing := table.SnapshotByKey(request.key.value);
      if existing.None? {
        return WriteError;
      }
      return ExistingOrConflict(existing.value, request);
    }
  }
}
