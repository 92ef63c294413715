/** The invariant over whole runs, and what it says of every reachable state. */
module LifecycleRuns {
  import opened Lifecycle
  import opened LifecycleInvariant
  import opened Accounting
  import O = Outbox

  predicate Inv(c: Config, s: State) {
    && JobInv(c, s)
    && WorkersInv(c, s)
    && RetriesInv(c, s)
    && BoxInv(c, s.box)
    && AccountInv(c, s)
  }

  lemma InvCreated(c: Config, s: State, e: O.EventId, now: nat)
    requires Configured(c) && Created(c, s, e, now)
    ensures Inv(c, s)
  {
    assert EventInv(c, s.box, e);
  }

  lemma InvKept(c: Config, s: State, a: Action)
    requires Configured(c) && Inv(c, s) && Enabled(c, s, a)
    ensures Inv(c, Next(c, s, a))
  {
    hide *;
    InvParts(c, s);
    JobInvKept(c, s, a);
    WorkersInvKept(c, s, a);
    RetriesInvKept(c, s, a);
    BoxInvKept(c, s, a);
    AccountInvKept(c, s, a);
    InvParts(c, Next(c, s, a));
  }

  lemma InvParts(c: Config, s: State)
    ensures Inv(c, s) <==>
              JobInv(c, s) && WorkersInv(c, s) && RetriesInv(c, s) && BoxInv(c, s.box) && AccountInv(c, s)
  {
  }

  lemma RunStep(c: Config, states: seq<State>, actions: seq<Action>, i: nat)
    requires Run(c, states, actions) && i < |actions|
    ensures Enabled(c, states[i], actions[i]) && states[i + 1] == Next(c, states[i], actions[i])
  {
  }

  lemma RunLength(c: Config, states: seq<State>, actions: seq<Action>)
    requires Run(c, states, actions)
    ensures |states| == |actions| + 1
  {
  }

  lemma RunStart(c: Config, states: seq<State>, actions: seq<Action>) returns (e: O.EventId, now: nat)
    requires Run(c, states, actions)
    ensures Created(c, states[0], e, now)
  {
    hide Next, Enabled;
    e, now :| Created(c, states[0], e, now);
  }

  lemma InvAtStart(c: Config, states: seq<State>, actions: seq<Action>)
    requires Configured(c) && Run(c, states, actions) && states != []
    ensures Inv(c, states[0])
  {
    hide *;
    var e, now := RunStart(c, states, actions);
    InvCreated(c, states[0], e, now);
  }

  /** The invariant holds all along every run. */
  lemma {:induction false} InvAlongRun(c: Config, states: seq<State>, actions: seq<Action>, i: nat)
    requires Configured(c) && Run(c, states, actions) && i < |states|
    ensures Inv(c, states[i])
  {
    hide *;
    if i == 0 {
      InvAtStart(c, states, actions);
    } else {
      RunLength(c, states, actions);
      RunStep(c, states, actions, i - 1);
      InvAlongRun(c, states, actions, i - 1);
      InvKept(c, states[i - 1], actions[i - 1]);
    }
  }

  lemma ReachableAtStart(c: Config, states: seq<State>, actions: seq<Action>)
    requires Run(c, states, actions) && states != []
    ensures Reachable(c, states[0])
  {
    hide *;
    var e, now := RunStart(c, states, actions);
    ReachableCreated(c, states[0], e, now);
  }

  /** Every state of a run is reachable. */
  lemma {:induction false} ReachableAlongRun(c: Config, states: seq<State>, actions: seq<Action>, i: nat)
    requires Run(c, states, actions) && i < |states|
    ensures Reachable(c, states[i])
  {
    hide *;
    if i == 0 {
      ReachableAtStart(c, states, actions);
    } else {
      RunLength(c, states, actions);
      RunStep(c, states, actions, i - 1);
      ReachableAlongRun(c, states, actions, i - 1);
      ReachableNext(c, states[i - 1], actions[i - 1]);
    }
  }

  ghost predicate EndsIn(c: Config, states: seq<State>, actions: seq<Action>, s: State) {
    Run(c, states, actions) && states[|states| - 1] == s
  }

  ghost predicate Reachable(c: Config, s: State) {
    exists states, actions :: EndsIn(c, states, actions, s)
  }

  lemma ReachableInv(c: Config, s: State)
    requires Configured(c) && Reachable(c, s)
    ensures Inv(c, s)
  {
    var states, actions :| EndsIn(c, states, actions, s);
    InvAlongRun(c, states, actions, |states| - 1);
  }

  lemma ReachableCreated(c: Config, s: State, e: O.EventId, now: nat)
    requires Created(c, s, e, now)
    ensures Reachable(c, s)
  {
    var states, actions: seq<Action> := [s], [];
    assert Created(c, states[0], e, now);
    assert Run(c, states, actions);
    assert EndsIn(c, states, actions, s);
  }

  lemma ReachableNext(c: Config, s: State, a: Action)
    requires Reachable(c, s) && Enabled(c, s, a)
    ensures Reachable(c, Next(c, s, a))
  {
    hide Next, Enabled, Created;
    var states, actions :| EndsIn(c, states, actions, s);
    var states', actions' := states + [Next(c, s, a)], actions + [a];
    assert states'[0] == states[0];
    forall i | 0 <= i < |actions'|
      ensures Enabled(c, states'[i], actions'[i]) && states'[i + 1] == Next(c, states'[i], actions'[i])
    {
      if i < |actions| {
        RunStep(c, states, actions, i);
        assert actions'[i] == actions[i] && states'[i] == states[i] && states'[i + 1] == states[i + 1];
      }
    }
    assert EndsIn(c, states', actions', Next(c, s, a));
  }

}
