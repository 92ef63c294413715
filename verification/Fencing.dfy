/** Statements about whole runs: lost ownership stays lost, terminal imports are frozen, and life is bounded. */
module Fencing {
  import opened Domain
  import opened Lifecycle
  import opened LifecycleInvariant
  import opened Accounting
  import opened LifecycleRuns
  import J = ImportJobs

  // --- Fencing ----------------------------------------------------------------------------------

  /** A token that was issued and does not own the row never owns it again. */
  lemma {:induction false} LostStaysLost(c: Config, states: seq<State>, actions: seq<Action>, i: nat, j: nat, t: Token)
    requires Run(c, states, actions) && i <= j < |states|
    requires t in states[i].tokens && !J.Owned(states[i].job, t)
    ensures t in states[j].tokens && !J.Owned(states[j].job, t)
    decreases j - i
  {
    hide *;
    if i < j {
      RunLength(c, states, actions);
      LostStaysLost(c, states, actions, i, j - 1, t);
      LostStep(c, states, actions, j - 1, t);
    }
  }

  lemma LostStep(c: Config, states: seq<State>, actions: seq<Action>, k: nat, t: Token)
    requires Run(c, states, actions) && k < |actions|
    requires t in states[k].tokens && !J.Owned(states[k].job, t)
    ensures t in states[k + 1].tokens && !J.Owned(states[k + 1].job, t)
  {
    hide *;
    RunLength(c, states, actions);
    RunStep(c, states, actions, k);
    StepFades(c, states[k], actions[k]);
    TokenFades(states[k], states[k + 1], t);
  }

  lemma TokenFades(s: State, s': State, t: Token)
    requires Fades(s, s')
    requires t in s.tokens && !J.Owned(s.job, t)
    ensures t in s'.tokens && !J.Owned(s'.job, t)
  {
  }

  /** Once the row's token is not a worker's any more, nothing it does changes the row, the shipments or the errors. */
  lemma ReplacedWorkerChangesNothing(
    c: Config, states: seq<State>, actions: seq<Action>, i: nat, j: nat, w: WorkerId, t: Token)
    requires Run(c, states, actions) && i <= j < |actions|
    requires t in states[i].tokens && !J.Owned(states[i].job, t)
    requires TakenBy(actions[j], w) && w in states[j].workers
    requires HasClaim(states[j].workers[w]) && states[j].workers[w].phase.claim.token == t
    ensures states[j + 1].job == states[j].job && states[j + 1].stored == states[j].stored
  {
    LostStaysLost(c, states, actions, i, j, t);
    match actions[j]
    case Intake(_, x) =>
    case Chunk(_, x) => ChunkGuarded(c, states[j], w, x);
    case Ending(_, x) => EndingGuarded(c, states[j], w, x);
  }

  /**
   * What a worker may rely on between its own steps, for however long it pauses: if it owns the row in the
   * end, it owned it all along, and row, shipments and errors are as it left them.
   */
  lemma {:induction false} OthersCanBeReliedOn(
    c: Config, states: seq<State>, actions: seq<Action>, i: nat, j: nat, w: WorkerId)
    requires Configured(c) && Run(c, states, actions) && i <= j < |states|
    requires w in states[i].workers && HasClaim(states[i].workers[w])
    requires forall k :: i <= k < j ==> !TakenBy(actions[k], w)
    ensures w in states[j].workers && states[j].workers[w] == states[i].workers[w]
    ensures var token := states[i].workers[w].phase.claim.token;
            J.Owned(states[j].job, token) ==>
              J.Owned(states[i].job, token) && states[j].job == states[i].job && states[j].stored == states[i].stored
    decreases j - i
  {
    hide *;
    if i < j {
      RunLength(c, states, actions);
      OthersCanBeReliedOn(c, states, actions, i, j - 1, w);
      OthersStepIsReliable(c, states, actions, j - 1, w);
    }
  }

  lemma OthersStepIsReliable(c: Config, states: seq<State>, actions: seq<Action>, k: nat, w: WorkerId)
    requires Configured(c) && Run(c, states, actions)
    requires k < |actions| && |states| == |actions| + 1
    requires w in states[k].workers && HasClaim(states[k].workers[w]) && !TakenBy(actions[k], w)
    ensures w in states[k + 1].workers && states[k + 1].workers[w] == states[k].workers[w]
    ensures var token := states[k].workers[w].phase.claim.token;
            J.Owned(states[k + 1].job, token) ==>
              && J.Owned(states[k].job, token)
              && states[k + 1].job == states[k].job && states[k + 1].stored == states[k].stored
  {
    hide *;
    RunStep(c, states, actions, k);
    InvAlongRun(c, states, actions, k);
    InvParts(c, states[k]);
    OthersKeepWorker(c, states[k], actions[k], w);
    ClaimedToken(states[k].workers[w]);
    if J.Owned(states[k + 1].job, states[k].workers[w].phase.claim.token) {
      OwnerUndisturbed(c, states[k], actions[k], w);
    }
  }

  lemma ClaimedToken(worker: Worker)
    requires HasClaim(worker)
    ensures !worker.phase.Delivered?
  {
  }

  // --- Terminal imports -------------------------------------------------------------------------

  lemma TerminalStepFrozen(c: Config, s: State, a: Action)
    requires JobInv(c, s) && Enabled(c, s, a) && J.Terminal(s.job)
    ensures Next(c, s, a).job == s.job && Next(c, s, a).stored == s.stored
  {
    match a
    case ByPublisher(_) => hide BoxNext, Exhausts;
    case ByBroker(_) =>
    case Intake(_, _) =>
    case Chunk(w, x) => ChunkGuarded(c, s, w, x);
    case Ending(w, x) => EndingGuarded(c, s, w, x);
    case ByWatchdog(_, _, _) =>
  }

  /** Completed and failed imports never change again, in their row or in their stored rows. */
  lemma {:induction false} TerminalIsFrozen(c: Config, states: seq<State>, actions: seq<Action>, i: nat, j: nat)
    requires Configured(c) && Run(c, states, actions) && i <= j < |states|
    requires J.Terminal(states[i].job)
    ensures states[j].job == states[i].job && states[j].stored == states[i].stored
    decreases j - i
  {
    hide *;
    if i < j {
      RunLength(c, states, actions);
      TerminalIsFrozen(c, states, actions, i, j - 1);
      FrozenStep(c, states, actions, j - 1);
    }
  }

  lemma FrozenStep(c: Config, states: seq<State>, actions: seq<Action>, k: nat)
    requires Configured(c) && Run(c, states, actions)
    requires k < |actions| && |states| == |actions| + 1
    requires J.Terminal(states[k].job)
    ensures states[k + 1].job == states[k].job && states[k + 1].stored == states[k].stored
  {
    hide *;
    RunStep(c, states, actions, k);
    InvAlongRun(c, states, actions, k);
    InvParts(c, states[k]);
    TerminalStepFrozen(c, states[k], actions[k]);
  }

  // --- Bounded life -----------------------------------------------------------------------------

  lemma ChunkAges(c: Config, s: State, w: WorkerId, a: ChunkAction)
    requires JobInv(c, s) && ChunkEnabled(c, s, w, a)
    ensures ChunkNext(c, s, w, a).job.attemptCount <= c.maxAttempts
    ensures J.Ages(s.job, ChunkNext(c, s, w, a).job)
  {
    hide Looked, Raced, Inserted;
  }

  lemma EndingAges(c: Config, s: State, w: WorkerId, a: EndingAction)
    requires JobInv(c, s) && WorkersInv(c, s) && EndingEnabled(c, s, w, a)
    ensures EndingNext(c, s, w, a).job.attemptCount <= c.maxAttempts
    ensures J.Ages(s.job, EndingNext(c, s, w, a).job)
  {
    assert HasClaim(s.workers[w]) ==> ClaimInv(c, s, s.workers[w]);
  }

  lemma StepAges(c: Config, s: State, a: Action)
    requires JobInv(c, s) && WorkersInv(c, s) && Enabled(c, s, a)
    ensures Next(c, s, a).job.attemptCount <= c.maxAttempts
    ensures J.Ages(s.job, Next(c, s, a).job)
  {
    match a
    case ByPublisher(_) => hide BoxNext, Exhausts;
    case ByBroker(_) =>
    case Intake(_, _) =>
    case Chunk(w, x) => ChunkAges(c, s, w, x);
    case Ending(w, x) => EndingAges(c, s, w, x);
    case ByWatchdog(_, _, _) =>
  }

  /** How often the import changed status in the first `n` steps. */
  function StatusChanges(states: seq<State>, n: nat): nat
    requires n < |states|
  {
    if n == 0 then 0
    else StatusChanges(states, n - 1) + if states[n - 1].job.status == states[n].job.status then 0 else 1
  }

  /** Every status change uses up life, so an import changes status at most twice per allowed attempt. */
  lemma {:induction false} LifeIsBounded(c: Config, states: seq<State>, actions: seq<Action>, n: nat)
    requires Configured(c) && Run(c, states, actions) && n < |states|
    ensures states[n].job.attemptCount <= c.maxAttempts == states[n].job.maxAttempts
    ensures StatusChanges(states, n) + J.Life(states[n].job) <= 2 * c.maxAttempts
  {
    hide *;
    InvAlongRun(c, states, actions, n);
    InvParts(c, states[n]);
    AttemptsAreBounded(c, states[n]);
    if n == 0 {
      CreatedLife(c, states, actions);
    } else {
      RunLength(c, states, actions);
      RunStep(c, states, actions, n - 1);
      LifeIsBounded(c, states, actions, n - 1);
      InvAlongRun(c, states, actions, n - 1);
      InvParts(c, states[n - 1]);
      AttemptsAreBounded(c, states[n - 1]);
      StepAges(c, states[n - 1], actions[n - 1]);
      StatusStep(states, n);
    }
  }

  lemma CreatedLife(c: Config, states: seq<State>, actions: seq<Action>)
    requires Run(c, states, actions)
    ensures states[0].job.attemptCount <= c.maxAttempts
    ensures StatusChanges(states, 0) + J.Life(states[0].job) <= 2 * c.maxAttempts
  {
    hide Next, Enabled;
  }

  lemma AttemptsAreBounded(c: Config, s: State)
    requires JobInv(c, s)
    ensures s.job.attemptCount <= c.maxAttempts == s.job.maxAttempts
  {
  }

  lemma StatusStep(states: seq<State>, n: nat)
    requires 0 < n < |states|
    requires states[n - 1].job.attemptCount <= states[n - 1].job.maxAttempts == states[n].job.maxAttempts
    requires states[n].job.attemptCount <= states[n].job.maxAttempts
    requires J.Ages(states[n - 1].job, states[n].job)
    ensures StatusChanges(states, n) + J.Life(states[n].job) <= StatusChanges(states, n - 1) + J.Life(states[n - 1].job)
  {
  }
}
