/**
 * Concurrent create_import calls as a transition system: each call takes the fingerprint lock, looks up
 * its key, looks up its fingerprint, and inserts, with any other calls in between. Every call gets the
 * outcome of one atomic check-then-insert.
 */
module CreateProtocol {
  import opened Domain

  type CallId = nat

  datatype Request = Request(key: Option<string>, fingerprint: string)

  /** The part of an import_jobs row that creation looks at. */
  datatype Row = Row(id: ImportId, key: Option<string>, fingerprint: string)

  datatype Outcome = Created(id: ImportId) | Existing(id: ImportId) | KeyConflict | Duplicate(id: ImportId) | WriteError

  /** The newest row with the key; the key is unique among rows that have one. */
  function FindKey(rows: seq<Row>, key: string): (r: Option<Row>)
    ensures r.Some? ==> r.value in rows && r.value.key == Some(key)
    ensures r.None? <==> forall row | row in rows :: row.key != Some(key)
  {
    if rows == [] then None
    else if rows[|rows| - 1].key == Some(key) then Some(rows[|rows| - 1])
    else FindKey(rows[..|rows| - 1], key)
  }

  function FindFingerprint(rows: seq<Row>, fingerprint: string): (r: Option<Row>)
    ensures r.Some? ==> r.value in rows && r.value.fingerprint == fingerprint
    ensures r.None? <==> forall row | row in rows :: row.fingerprint != fingerprint
  {
    if rows == [] then None
    else if rows[|rows| - 1].fingerprint == fingerprint then Some(rows[|rows| - 1])
    else FindFingerprint(rows[..|rows| - 1], fingerprint)
  }

  /** What one indivisible call would answer; `id` is the identifier it would create. */
  function Atomic(rows: seq<Row>, request: Request, id: ImportId): Outcome {
    var byKey := if request.key.Some? then FindKey(rows, request.key.value) else None;
    if byKey.Some? then
      if byKey.value.fingerprint == request.fingerprint then Existing(byKey.value.id) else KeyConflict
    else
      var byFingerprint := FindFingerprint(rows, request.fingerprint);
      if byFingerprint.Some? then Duplicate(byFingerprint.value.id) else Created(id)
  }

  /**
   * Where a call stands; `seen` is the table at its key lookup (history). A creation is committed before it is
   * answered.
   */
  datatype Phase =
    | Invoked
    | Locked
    | KeyChecked(seen: seq<Row>)
    | FingerprintChecked
    | Collided
    | Committed(id: ImportId)
    | Answered(outcome: Outcome)

  datatype Call = Call(request: Request, phase: Phase)

  /** `locks` are the advisory locks held, by hashed fingerprint; `intents` the creation-time outbox rows. */
  datatype State = State(rows: seq<Row>, intents: seq<ImportId>, locks: map<int, CallId>, calls: map<CallId, Call>)

  const INITIAL := State([], [], map[], map[])

  datatype Action =
    | Invoke(call: CallId, request: Request)
    | AcquireLock(call: CallId)
    | LookUpKey(call: CallId)
    | LookUpFingerprint(call: CallId)
    | Commit(call: CallId, id: ImportId)
    | AnswerCreated(call: CallId)
    | CollideOnKey(call: CallId)
    | LookUpAfterRollback(call: CallId)
    | FailWrite(call: CallId)
    | Die(call: CallId)

  predicate InPhase(s: State, call: CallId, phase: Phase) {
    call in s.calls && s.calls[call].phase == phase
  }

  predicate KeyTaken(s: State, request: Request) {
    request.key.Some? && FindKey(s.rows, request.key.value).Some?
  }

  predicate Enabled(hash: string -> int, s: State, a: Action) {
    match a
    case Invoke(call, _) => call !in s.calls
    case AcquireLock(call) =>
      InPhase(s, call, Invoked) && hash(s.calls[call].request.fingerprint) !in s.locks
    case LookUpKey(call) => InPhase(s, call, Locked)
    case LookUpFingerprint(call) => call in s.calls && s.calls[call].phase.KeyChecked?
    case Commit(call, id) =>
      && InPhase(s, call, FingerprintChecked) && !KeyTaken(s, s.calls[call].request)
      && forall row | row in s.rows :: row.id != id
    case AnswerCreated(call) => call in s.calls && s.calls[call].phase.Committed?
    case CollideOnKey(call) => InPhase(s, call, FingerprintChecked) && KeyTaken(s, s.calls[call].request)
    case LookUpAfterRollback(call) => InPhase(s, call, Collided)
    case FailWrite(call) => InPhase(s, call, FingerprintChecked)
    case Die(call) => call in s.calls && !s.calls[call].phase.Answered?
  }

  function Move(s: State, call: CallId, phase: Phase): State
    requires call in s.calls
  {
    s.(calls := s.calls[call := s.calls[call].(phase := phase)])
  }

  /** The end of the transaction releases the lock. */
  function Release(hash: string -> int, s: State, call: CallId): State
    requires call in s.calls
  {
    var lock := hash(s.calls[call].request.fingerprint);
    if lock in s.locks && s.locks[lock] == call then s.(locks := s.locks - {lock}) else s
  }

  function Answer(hash: string -> int, s: State, call: CallId, outcome: Outcome): State
    requires call in s.calls
  {
    Move(Release(hash, s, call), call, Answered(outcome))
  }

  /** What the caller is told about a row that already has its key. */
  function ExistingOrConflict(row: Row, request: Request): Outcome {
    if row.fingerprint != request.fingerprint then KeyConflict else Existing(row.id)
  }

  function Next(hash: string -> int, s: State, a: Action): State
    requires Enabled(hash, s, a)
  {
    match a
    case Invoke(call, request) => s.(calls := s.calls[call := Call(request, Invoked)])
    case AcquireLock(call) =>
      Move(s.(locks := s.locks[hash(s.calls[call].request.fingerprint) := call]), call, Locked)
    case LookUpKey(call) =>
      var request := s.calls[call].request;
      var row := if request.key.Some? then FindKey(s.rows, request.key.value) else None;
      if row.Some? then Answer(hash, s, call, ExistingOrConflict(row.value, request))
      else Move(s, call, KeyChecked(s.rows))
    case LookUpFingerprint(call) =>
      var row := FindFingerprint(s.rows, s.calls[call].request.fingerprint);
      if row.Some? then Answer(hash, s, call, Duplicate(row.value.id))
      else Move(s, call, FingerprintChecked)
    case Commit(call, id) =>
      var request := s.calls[call].request;
      Move(Release(hash, s, call), call, Committed(id))
        .(rows := s.rows + [Row(id, request.key, request.fingerprint)], intents := s.intents + [id])
    case AnswerCreated(call) => Answer(hash, s, call, Created(s.calls[call].phase.id))
    case CollideOnKey(call) => Move(Release(hash, s, call), call, Collided)
    case LookUpAfterRollback(call) =>
      var request := s.calls[call].request;
      var row := if request.key.Some? then FindKey(s.rows, request.key.value) else None;
      Answer(hash, s, call, if row.Some? then ExistingOrConflict(row.value, request) else WriteError)
    case FailWrite(call) => Answer(hash, s, call, WriteError)
    case Die(call) => var s' := Release(hash, s, call); s'.(calls := s'.calls - {call})
  }

  // --- Invariant --------------------------------------------------------------------------------

  predicate HoldsLock(phase: Phase) {
    phase.Locked? || phase.KeyChecked? || phase.FingerprintChecked?
  }

  predicate RowsInv(s: State) {
    && (forall i, j :: 0 <= i < j < |s.rows| ==>
          && s.rows[i].id != s.rows[j].id
          && s.rows[i].fingerprint != s.rows[j].fingerprint
          && (s.rows[i].key.Some? ==> s.rows[i].key != s.rows[j].key))
    && |s.intents| == |s.rows|
    && forall i :: 0 <= i < |s.rows| ==> s.intents[i] == s.rows[i].id
  }

  predicate CallInv(hash: string -> int, s: State, call: CallId)
    requires call in s.calls
  {
    var request, phase := s.calls[call].request, s.calls[call].phase;
    && (HoldsLock(phase) ==> hash(request.fingerprint) in s.locks && s.locks[hash(request.fingerprint)] == call)
    && (phase.KeyChecked? ==>
          && phase.seen <= s.rows
          && (request.key.Some? ==> FindKey(phase.seen, request.key.value).None?)
          && (forall i :: |phase.seen| <= i < |s.rows| ==> s.rows[i].fingerprint != request.fingerprint))
    && (phase.FingerprintChecked? ==> FindFingerprint(s.rows, request.fingerprint).None?)
    && (phase.Collided? ==>
          && request.key.Some?
          && exists row :: row in s.rows && row.key == request.key && row.fingerprint != request.fingerprint)
  }

  predicate Inv(hash: string -> int, s: State) {
    RowsInv(s) && forall call | call in s.calls :: CallInv(hash, s, call)
  }

  lemma {:induction false} UnusedId(rows: seq<Row>) returns (id: ImportId)
    ensures forall row | row in rows :: row.id < id
  {
    if rows == [] {
      id := 0;
    } else {
      var n := |rows| - 1;
      id := UnusedId(rows[..n]);
      id := if rows[n].id < id then id else rows[n].id + 1;
      assert forall row | row in rows :: row in rows[..n] || row == rows[n];
    }
  }

  /** No call is stuck: it can begin at any time, and until its answer it can go on unless its lock is taken. */
  lemma CallGoesOn(hash: string -> int, s: State, call: CallId, request: Request) returns (a: Action)
    requires call in s.calls ==>
               && s.calls[call].request == request && !s.calls[call].phase.Answered?
               && (s.calls[call].phase.Invoked? ==> hash(request.fingerprint) !in s.locks)
    ensures a.call == call && Enabled(hash, s, a) && !a.Die? && !a.FailWrite?
    ensures call in Next(hash, s, a).calls && Next(hash, s, a).calls[call].request == request
  {
    if call !in s.calls {
      a := Invoke(call, request);
    } else {
      match s.calls[call].phase
      case Invoked => a := AcquireLock(call);
      case Locked => a := LookUpKey(call);
      case KeyChecked(_) => a := LookUpFingerprint(call);
      case FingerprintChecked =>
        var id := UnusedId(s.rows);
        a := if KeyTaken(s, request) then CollideOnKey(call) else Commit(call, id);
      case Collided => a := LookUpAfterRollback(call);
      case Committed(_) => a := AnswerCreated(call);
    }
  }

  /** While a call holds its lock, no other call can insert its fingerprint. */
  lemma OthersInsertElsewhere(hash: string -> int, s: State, call: CallId, other: CallId)
    requires Inv(hash, s) && call in s.calls && other in s.calls && call != other
    requires HoldsLock(s.calls[call].phase) && HoldsLock(s.calls[other].phase)
    ensures s.calls[call].request.fingerprint != s.calls[other].request.fingerprint
  {
    assert CallInv(hash, s, call) && CallInv(hash, s, other);
  }

  lemma RowsFrame(hash: string -> int, s: State, a: Action)
    requires Enabled(hash, s, a)
    ensures if a.Commit?
            then
              && a.call in s.calls
              && Next(hash, s, a).rows ==
                 s.rows + [Row(a.id, s.calls[a.call].request.key, s.calls[a.call].request.fingerprint)]
              && Next(hash, s, a).intents == s.intents + [a.id]
            else Next(hash, s, a).rows == s.rows && Next(hash, s, a).intents == s.intents
  {
  }

  lemma RowAppended(s: State, s': State, row: Row)
    requires RowsInv(s) && s'.rows == s.rows + [row] && s'.intents == s.intents + [row.id]
    requires forall r | r in s.rows :: r.id != row.id && r.fingerprint != row.fingerprint
    requires row.key.Some? ==> FindKey(s.rows, row.key.value).None?
    ensures RowsInv(s')
  {
    assert forall i :: 0 <= i < |s.rows| ==> s'.rows[i] == s.rows[i] && s.rows[i] in s.rows;
    hide FindKey;
  }

  lemma RowsInvKept(hash: string -> int, s: State, a: Action)
    requires Inv(hash, s) && Enabled(hash, s, a)
    ensures RowsInv(Next(hash, s, a))
  {
    RowsFrame(hash, s, a);
    if a.Commit? {
      assert CallInv(hash, s, a.call);
      var request := s.calls[a.call].request;
      hide Next, Inv, CallInv, RowsInv;
      RowAppended(s, Next(hash, s, a), Row(a.id, request.key, request.fingerprint));
    }
  }

  lemma ActorInvKept(hash: string -> int, s: State, a: Action)
    requires Inv(hash, s) && Enabled(hash, s, a) && a.call in Next(hash, s, a).calls
    ensures CallInv(hash, Next(hash, s, a), a.call)
  {
    assert a.call in s.calls ==> CallInv(hash, s, a.call);
    if a.CollideOnKey? {
      var request := s.calls[a.call].request;
      var row := FindKey(s.rows, request.key.value).value;
      assert row in s.rows && row.key == request.key && row.fingerprint != request.fingerprint;
    }
  }

  /** The rows grow only by a commit, at the end. */
  predicate Grows(s: State, s': State, a: Action) {
    if a.Commit?
    then a.call in s.calls && s'.rows == s.rows + [Row(a.id, s.calls[a.call].request.key,
        s.calls[a.call].request.fingerprint)]
    else s'.rows == s.rows
  }

  lemma StepFrame(hash: string -> int, s: State, a: Action, call: CallId)
    requires Enabled(hash, s, a) && call in Next(hash, s, a).calls && call != a.call
    ensures call in s.calls && Next(hash, s, a).calls[call] == s.calls[call]
    ensures Grows(s, Next(hash, s, a), a)
    ensures forall lock | lock in s.locks && s.locks[lock] == call ::
              lock in Next(hash, s, a).locks && Next(hash, s, a).locks[lock] == call
  {
  }

  lemma CallInvFrame(hash: string -> int, s: State, s': State, a: Action, call: CallId)
    requires call in s.calls && call in s'.calls && s'.calls[call] == s.calls[call]
    requires CallInv(hash, s, call) && Grows(s, s', a)
    requires a.Commit? && HoldsLock(s.calls[call].phase) ==>
               s.calls[call].request.fingerprint != s.calls[a.call].request.fingerprint
    requires forall lock | lock in s.locks && s.locks[lock] == call :: lock in s'.locks && s'.locks[lock] == call
    ensures CallInv(hash, s', call)
  {
    var request, phase := s.calls[call].request, s.calls[call].phase;
    var lock := hash(request.fingerprint);
    assert HoldsLock(phase) ==> lock in s.locks && s.locks[lock] == call;
    assert HoldsLock(phase) ==> lock in s'.locks && s'.locks[lock] == call;
    assert forall i :: 0 <= i < |s.rows| ==> s'.rows[i] == s.rows[i];
    if phase.KeyChecked? {
      assert forall i :: 0 <= i < |phase.seen| ==> phase.seen[i] == s.rows[i];
    }
    if phase.Collided? {
      var row :| row in s.rows && row.key == request.key && row.fingerprint != request.fingerprint;
      assert row in s'.rows;
    }
    if a.Commit? && phase.FingerprintChecked? {
      assert forall row | row in s'.rows :: row in s.rows || row == s'.rows[|s.rows|];
    }
  }

  lemma OtherInvKept(hash: string -> int, s: State, a: Action, call: CallId)
    requires Inv(hash, s) && Enabled(hash, s, a) && call in Next(hash, s, a).calls && call != a.call
    ensures CallInv(hash, Next(hash, s, a), call)
  {
    StepFrame(hash, s, a, call);
    assert CallInv(hash, s, call);
    if a.Commit? && HoldsLock(s.calls[call].phase) {
      OthersInsertElsewhere(hash, s, call, a.call);
    }
    hide Next, Enabled, Inv, RowsInv;
    CallInvFrame(hash, s, Next(hash, s, a), a, call);
  }

  lemma InvKept(hash: string -> int, s: State, a: Action)
    requires Inv(hash, s) && Enabled(hash, s, a)
    ensures Inv(hash, Next(hash, s, a))
  {
    RowsInvKept(hash, s, a);
    forall call | call in Next(hash, s, a).calls ensures CallInv(hash, Next(hash, s, a), call) {
      if call == a.call {
        ActorInvKept(hash, s, a);
      } else {
        OtherInvKept(hash, s, a, call);
      }
    }
  }

  ghost predicate Run(hash: string -> int, states: seq<State>, actions: seq<Action>) {
    && |states| == |actions| + 1
    && states[0] == INITIAL
    && forall i :: 0 <= i < |actions| ==>
         Enabled(hash, states[i], actions[i]) && states[i + 1] == Next(hash, states[i], actions[i])
  }

  lemma RunStep(hash: string -> int, states: seq<State>, actions: seq<Action>, k: nat)
    requires Run(hash, states, actions) && k + 1 < |states|
    ensures k < |actions| && Enabled(hash, states[k], actions[k]) && states[k + 1] == Next(hash, states[k], actions[k])
  {
    hide Next, Enabled;
  }

  lemma {:induction false} InvAlongRun(hash: string -> int, states: seq<State>, actions: seq<Action>, n: nat)
    requires Run(hash, states, actions) && n < |states|
    ensures Inv(hash, states[n])
  {
    if n != 0 {
      RunStep(hash, states, actions, n - 1);
      hide *;
      InvAlongRun(hash, states, actions, n - 1);
      InvKept(hash, states[n - 1], actions[n - 1]);
    }
  }

  // --- Uniqueness -------------------------------------------------------------------------------

  /**
   * Whatever the interleaving, at most one job has a given fingerprint, although no index says so, and
   * at most one a given key; and every job has exactly one creation-time intent.
   */
  lemma JobsAreUnique(hash: string -> int, states: seq<State>, actions: seq<Action>, n: nat)
    requires Run(hash, states, actions) && n < |states|
    ensures forall i, j :: 0 <= i < j < |states[n].rows| ==>
              states[n].rows[i].fingerprint != states[n].rows[j].fingerprint
    ensures forall i, j :: 0 <= i < j < |states[n].rows| && states[n].rows[i].key.Some? ==>
              states[n].rows[i].key != states[n].rows[j].key
    ensures forall i, j :: 0 <= i < j < |states[n].intents| ==> states[n].intents[i] != states[n].intents[j]
    ensures |states[n].intents| == |states[n].rows|
    ensures forall i :: 0 <= i < |states[n].rows| ==> states[n].intents[i] == states[n].rows[i].id
  {
    InvAlongRun(hash, states, actions, n);
  }

  /** A collision on the key always ends as a conflict: the other two branches after the rollback are dead. */
  lemma CollisionIsConflict(hash: string -> int, states: seq<State>, actions: seq<Action>, n: nat)
    requires Run(hash, states, actions) && n < |actions| && actions[n].LookUpAfterRollback?
    ensures InPhase(states[n + 1], actions[n].call, Answered(KeyConflict))
  {
    InvAlongRun(hash, states, actions, n);
    var s, call := states[n], actions[n].call;
    assert CallInv(hash, s, call);
    var request := s.calls[call].request;
    var row :| row in s.rows && row.key == request.key && row.fingerprint != request.fingerprint;
    var found := FindKey(s.rows, request.key.value).value;
    var i :| 0 <= i < |s.rows| && s.rows[i] == row;
    var j :| 0 <= j < |s.rows| && s.rows[j] == found;
    assert i == j;
  }

  // --- Linearizability --------------------------------------------------------------------------

  /** The call is pending in `s`: invoked and not yet answered. */
  predicate Pending(s: State, call: CallId) {
    call in s.calls && !s.calls[call].phase.Answered?
  }

  /** From state `i` to state `n` the call is pending with one request. */
  ghost predicate PendingFrom(states: seq<State>, i: nat, n: nat, call: CallId)
    requires n < |states|
  {
    && i <= n && call in states[n].calls
    && forall k :: i <= k <= n ==>
         Pending(states[k], call) && states[k].calls[call].request == states[n].calls[call].request
  }

  lemma PendingOn(states: seq<State>, i: nat, n: nat, call: CallId)
    requires n + 1 < |states| && PendingFrom(states, i, n, call)
    requires Pending(states[n + 1], call) && states[n + 1].calls[call].request == states[n].calls[call].request
    ensures PendingFrom(states, i, n + 1, call)
  {
  }

  /** The step that brings a call into this phase. */
  predicate Enters(a: Action, call: CallId, phase: Phase) {
    match phase
    case KeyChecked(_) => a == LookUpKey(call)
    case FingerprintChecked => a == LookUpFingerprint(call)
    case Committed(id) => a == Commit(call, id)
    case _ => false
  }

  predicate Traced(phase: Phase) {
    phase.KeyChecked? || phase.FingerprintChecked? || phase.Committed?
  }

  /**
   * A call in one of these phases entered it earlier and has been pending since: the table it saw at its key
   * lookup, and the table into which it inserted, were those of a moment inside the call.
   */
  lemma {:induction false} EnteredBefore(hash: string -> int, states: seq<State>, actions: seq<Action>, n: nat,
          call: CallId)
    requires Run(hash, states, actions) && n < |states| && call in states[n].calls
    requires Traced(states[n].calls[call].phase)
    ensures exists i: nat :: i < n && Enters(actions[i], call, states[n].calls[call].phase)
                          && PendingFrom(states, i, n, call)
                          && states[i + 1].calls[call] == states[n].calls[call]
  {
    assert n != 0;
    var s, a, phase := states[n - 1], actions[n - 1], states[n].calls[call].phase;
    RunStep(hash, states, actions, n - 1);
    if Enters(a, call, phase) {
      StepInto(hash, s, a, call, phase);
      assert PendingFrom(states, n - 1, n, call);
    } else {
      StepKeepsPhase(hash, s, a, call);
      EnteredBefore(hash, states, actions, n - 1, call);
      var i: nat :| i < n - 1 && Enters(actions[i], call, phase) && PendingFrom(states, i, n - 1, call)
                 && states[i + 1].calls[call] == s.calls[call];
      PendingOn(states, i, n - 1, call);
    }
  }

  lemma StepInto(hash: string -> int, s: State, a: Action, call: CallId, phase: Phase)
    requires Enabled(hash, s, a) && Enters(a, call, phase)
    ensures Pending(s, call) && call in Next(hash, s, a).calls
    ensures Next(hash, s, a).calls[call].request == s.calls[call].request
    ensures phase.KeyChecked? && Next(hash, s, a).calls[call].phase == phase ==>
              phase.seen == s.rows && !KeyTaken(s, s.calls[call].request)
  {
  }

  lemma StepKeepsPhase(hash: string -> int, s: State, a: Action, call: CallId)
    requires Enabled(hash, s, a) && call in Next(hash, s, a).calls
    requires var phase := Next(hash, s, a).calls[call].phase;
             Traced(phase) && !Enters(a, call, phase)
    ensures call in s.calls && s.calls[call] == Next(hash, s, a).calls[call]
  {
    if call != a.call {
      StepFrame(hash, s, a, call);
    }
  }

  /** The step that answers a call, and what it answers. */
  predicate Answers(s: State, s': State, call: CallId) {
    Pending(s, call) && call in s'.calls && s'.calls[call].phase.Answered?
  }

  function AnswerOf(s': State, call: CallId): Outcome
    requires call in s'.calls && s'.calls[call].phase.Answered?
  {
    s'.calls[call].phase.outcome
  }

  lemma OnlyActorAnswers(hash: string -> int, s: State, a: Action, call: CallId)
    requires Enabled(hash, s, a) && Answers(s, Next(hash, s, a), call)
    ensures a.call == call && Next(hash, s, a).rows == s.rows
  {
    if a.call != call {
      StepFrame(hash, s, a, call);
    }
  }

  /** The fingerprint lookup finds a row that was already there at the key lookup. */
  lemma DuplicateWasSeen(rows: seq<Row>, seen: seq<Row>, request: Request, id: ImportId)
    requires seen <= rows
    requires request.key.Some? ==> FindKey(seen, request.key.value).None?
    requires forall i :: |seen| <= i < |rows| ==> rows[i].fingerprint != request.fingerprint
    requires FindFingerprint(rows, request.fingerprint).Some?
    ensures Atomic(seen, request, id) == Duplicate(FindFingerprint(rows, request.fingerprint).value.id)
    decreases |rows|
  {
    if |seen| < |rows| {
      DuplicateWasSeen(rows[..|rows| - 1], seen, request, id);
    } else {
      assert seen == rows;
    }
  }

  /**
   * From moment `i` to the answer the call was pending, and its answer is what an atomic call at `i` would have
   * answered. A creation has inserted its row at that moment.
   */
  ghost predicate LinearizesAt(states: seq<State>, i: nat, n: nat, call: CallId)
    requires n + 1 < |states| && Answers(states[n], states[n + 1], call)
  {
    var request, outcome := states[n].calls[call].request, AnswerOf(states[n + 1], call);
    var id := if outcome.Created? then outcome.id else 0;
    && PendingFrom(states, i, n, call)
    && Atomic(states[i].rows, request, id) == outcome
    && (outcome.Created? ==>
          states[i + 1].rows == states[i].rows + [Row(id, request.key, request.fingerprint)])
  }

  /** A call whose key lookup found nothing answers with the row it then finds by its fingerprint. */
  lemma DuplicateLinearizes(hash: string -> int, states: seq<State>, actions: seq<Action>, n: nat, call: CallId)
    requires Run(hash, states, actions) && n < |actions| && actions[n] == LookUpFingerprint(call)
    requires Answers(states[n], states[n + 1], call)
    ensures exists i: nat :: LinearizesAt(states, i, n, call)
  {
    var s := states[n];
    InvAlongRun(hash, states, actions, n);
    assert CallInv(hash, s, call);
    EnteredBefore(hash, states, actions, n, call);
    var i: nat :| i < n && actions[i] == LookUpKey(call) && PendingFrom(states, i, n, call)
               && states[i + 1].calls[call] == s.calls[call];
    RunStep(hash, states, actions, i);
    StepInto(hash, states[i], actions[i], call, s.calls[call].phase);
    DuplicateWasSeen(s.rows, states[i].rows, s.calls[call].request, 0);
    assert LinearizesAt(states, i, n, call);
  }

  /** A commit inserts into a table in which neither key nor fingerprint is taken. */
  lemma CommitIsAtomic(hash: string -> int, s: State, call: CallId, id: ImportId)
    requires Inv(hash, s) && Enabled(hash, s, Commit(call, id))
    ensures call in s.calls && Atomic(s.rows, s.calls[call].request, id) == Created(id)
    ensures var request := s.calls[call].request;
            Next(hash, s, Commit(call, id)).rows == s.rows + [Row(id, request.key, request.fingerprint)]
  {
    assert CallInv(hash, s, call);
  }

  lemma CreatedLinearizes(hash: string -> int, states: seq<State>, actions: seq<Action>, n: nat, call: CallId)
    requires Run(hash, states, actions) && n < |actions| && actions[n] == AnswerCreated(call)
    requires Answers(states[n], states[n + 1], call)
    ensures exists i: nat :: LinearizesAt(states, i, n, call)
  {
    var id := states[n].calls[call].phase.id;
    EnteredBefore(hash, states, actions, n, call);
    var i: nat :| i < n && actions[i] == Commit(call, id) && PendingFrom(states, i, n, call)
               && states[i + 1].calls[call] == states[n].calls[call];
    RunStep(hash, states, actions, i);
    InvAlongRun(hash, states, actions, i);
    CommitIsAtomic(hash, states[i], call, id);
    assert LinearizesAt(states, i, n, call);
  }

  /**
   * Every call that is answered gets the answer of an atomic check-then-insert at some moment between its
   * invocation and its answer; the moment of a creation is its commit, and no answer changes the table.
   */
  lemma CreateImportIsLinearizable(hash: string -> int, states: seq<State>, actions: seq<Action>, n: nat, call: CallId)
    requires Run(hash, states, actions) && n < |actions| && Answers(states[n], states[n + 1], call)
    ensures states[n + 1].rows == states[n].rows
    ensures AnswerOf(states[n + 1], call).WriteError? || exists i: nat :: LinearizesAt(states, i, n, call)
  {
    var s, a := states[n], actions[n];
    RunStep(hash, states, actions, n);
    OnlyActorAnswers(hash, s, a, call);
    assert PendingFrom(states, n, n, call);
    match a
    case LookUpKey(_) => assert LinearizesAt(states, n, n, call);
    case LookUpFingerprint(_) => DuplicateLinearizes(hash, states, actions, n, call);
    case AnswerCreated(_) => CreatedLinearizes(hash, states, actions, n, call);
    case LookUpAfterRollback(_) =>
      InvAlongRun(hash, states, actions, n);
      assert CallInv(hash, s, call);
      CollisionIsConflict(hash, states, actions, n);
      assert LinearizesAt(states, n, n, call);
    case FailWrite(_) =>
  }

  // --- Repeated requests ------------------------------------------------------------------------

  /** The table only grows. */
  lemma {:induction false} RowsGrow(hash: string -> int, states: seq<State>, actions: seq<Action>, i: nat, n: nat)
    requires Run(hash, states, actions) && i <= n < |states|
    ensures states[i].rows <= states[n].rows
    decreases n
  {
    hide *;
    if i < n {
      RunStep(hash, states, actions, n - 1);
      StepGrows(hash, states[n - 1], actions[n - 1]);
      RowsGrow(hash, states, actions, i, n - 1);
    }
  }

  lemma StepGrows(hash: string -> int, s: State, a: Action)
    requires Enabled(hash, s, a)
    ensures s.rows <= Next(hash, s, a).rows
  {
    RowsFrame(hash, s, a);
    hide Next, Enabled;
  }

  /** With a row in the table, an atomic call finds it by its key or else by its fingerprint. */
  lemma AtomicFinds(rows: seq<Row>, row: Row, request: Request, id: ImportId)
    requires row in rows
    requires forall i, j :: 0 <= i < j < |rows| ==>
               && rows[i].fingerprint != rows[j].fingerprint
               && (rows[i].key.Some? ==> rows[i].key != rows[j].key)
    ensures row.key.Some? && request.key == row.key ==>
              Atomic(rows, request, id) ==
              if request.fingerprint == row.fingerprint then Existing(row.id) else KeyConflict
    ensures request.fingerprint == row.fingerprint && request.key.None? ==>
              Atomic(rows, request, id) == Duplicate(row.id)
    ensures request.fingerprint == row.fingerprint ==> !Atomic(rows, request, id).Created?
  {
    if request.key.Some? && request.key == row.key {
      var found := FindKey(rows, request.key.value);
      var i :| 0 <= i < |rows| && rows[i] == row;
      var j :| 0 <= j < |rows| && rows[j] == found.value;
    } else if request.fingerprint == row.fingerprint {
      var found := FindFingerprint(rows, request.fingerprint);
      var i :| 0 <= i < |rows| && rows[i] == row;
      var j :| 0 <= j < |rows| && rows[j] == found.value;
    }
  }

  /** A call that fails to write has looked up its key before, and found nothing. */
  lemma WriterLookedUpKey(hash: string -> int, states: seq<State>, actions: seq<Action>, n: nat, call: CallId)
    requires Run(hash, states, actions) && n < |actions| && actions[n] == FailWrite(call)
    ensures exists i: nat :: PendingFrom(states, i, n, call) && !KeyTaken(states[i], states[n].calls[call].request)
  {
    EnteredBefore(hash, states, actions, n, call);
    var j: nat :| j < n && actions[j] == LookUpFingerprint(call) && PendingFrom(states, j, n, call)
               && states[j + 1].calls[call] == states[n].calls[call];
    RunStep(hash, states, actions, j);
    EnteredBefore(hash, states, actions, j, call);
    var i: nat :| i < j && actions[i] == LookUpKey(call) && PendingFrom(states, i, j, call)
               && states[i + 1].calls[call] == states[j].calls[call];
    RunStep(hash, states, actions, i);
    StepInto(hash, states[i], actions[i], call, states[j].calls[call].phase);
    assert PendingFrom(states, i, n, call);
  }

  lemma RowStays(hash: string -> int, states: seq<State>, actions: seq<Action>, m: nat, i: nat,
          first: CallId, id: ImportId)
    requires Run(hash, states, actions) && m < i < |states| && actions[m] == Commit(first, id)
    ensures first in states[m].calls
    ensures var created := states[m].calls[first].request;
            Row(id, created.key, created.fingerprint) in states[i].rows
  {
    RunStep(hash, states, actions, m);
    RowsFrame(hash, states[m], actions[m]);
    RowsGrow(hash, states, actions, m + 1, i);
    assert states[i].rows[|states[m].rows|] == states[m + 1].rows[|states[m].rows|];
  }

  /** A later call with the key or the upload of a committed creation never gets as far as a failing write. */
  lemma RepeatedRequestWritesNothing(hash: string -> int, states: seq<State>, actions: seq<Action>, m: nat, n: nat,
          first: CallId, id: ImportId, call: CallId)
    requires Run(hash, states, actions) && m < n < |actions| && actions[m] == Commit(first, id)
    requires call !in states[m + 1].calls && actions[n] == FailWrite(call) && first in states[m].calls
    ensures call in states[n].calls
    ensures var created, request := states[m].calls[first].request, states[n].calls[call].request;
            request.fingerprint != created.fingerprint && (created.key.Some? ==> request.key != created.key)
  {
    WriterLookedUpKey(hash, states, actions, n, call);
    var i: nat :| PendingFrom(states, i, n, call) && !KeyTaken(states[i], states[n].calls[call].request);
    assert m + 1 < i;
    RowStays(hash, states, actions, m, i, first, id);
    RowStays(hash, states, actions, m, n, first, id);
    InvAlongRun(hash, states, actions, n);
    assert CallInv(hash, states[n], call);
  }

  /**
   * Once a creation is committed, whether or not its caller was ever told, every later call for the same upload
   * finds its job, and every later call that has its key with another upload is refused.
   */
  lemma RepeatedRequestFindsTheJob(hash: string -> int, states: seq<State>, actions: seq<Action>, m: nat, n: nat,
          first: CallId, id: ImportId, call: CallId)
    requires Run(hash, states, actions) && m < n < |actions|
    requires actions[m] == Commit(first, id)
    requires call !in states[m + 1].calls && Answers(states[n], states[n + 1], call)
    ensures first in states[m].calls
    ensures var created, request := states[m].calls[first].request, states[n].calls[call].request;
            var outcome := AnswerOf(states[n + 1], call);
            && (created.key.Some? && request.key == created.key ==>
                  outcome == if request.fingerprint == created.fingerprint then Existing(id) else KeyConflict)
            && (request.fingerprint == created.fingerprint && request.key.None? ==> outcome == Duplicate(id))
            && (request.fingerprint == created.fingerprint ==> !outcome.Created? && !outcome.WriteError?)
  {
    RunStep(hash, states, actions, m);
    var created, request := states[m].calls[first].request, states[n].calls[call].request;
    var outcome := AnswerOf(states[n + 1], call);
    CreateImportIsLinearizable(hash, states, actions, n, call);
    if outcome.WriteError? {
      OnlyFailingWrites(hash, states, actions, n, call);
      RepeatedRequestWritesNothing(hash, states, actions, m, n, first, id, call);
    } else {
      var i: nat :| LinearizesAt(states, i, n, call);
      assert m + 1 < i;
      RowStays(hash, states, actions, m, i, first, id);
      JobsAreUnique(hash, states, actions, i);
      AtomicFinds(states[i].rows, Row(id, created.key, created.fingerprint), request,
        if outcome.Created? then outcome.id else 0);
    }
  }

  /** A write error is answered by a failed write alone. */
  lemma OnlyFailingWrites(hash: string -> int, states: seq<State>, actions: seq<Action>, n: nat, call: CallId)
    requires Run(hash, states, actions) && n < |actions| && Answers(states[n], states[n + 1], call)
    requires AnswerOf(states[n + 1], call).WriteError?
    ensures actions[n] == FailWrite(call)
  {
    RunStep(hash, states, actions, n);
    OnlyActorAnswers(hash, states[n], actions[n], call);
    if actions[n].LookUpAfterRollback? {
      CollisionIsConflict(hash, states, actions, n);
    }
  }
}
