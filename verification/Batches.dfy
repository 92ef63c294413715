/**
 * The bounded batches that publishers and watchdogs work on: eligible rows, oldest first, at most `limit`
 * of them, without those locked by other transactions.
 */
module Batches {

  /** Eligible rows by identifier, each with the time they are ordered by. */
  type Times = map<nat, nat>

  predicate Before(times: Times, a: nat, b: nat)
    requires a in times && b in times
  {
    times[a] < times[b] || (times[a] == times[b] && a <= b)
  }

  predicate Least(times: Times, id: nat) {
    id in times && forall other | other in times :: Before(times, id, other)
  }

  lemma {:induction false} LeastExists(times: Times)
    requires times != map[]
    ensures exists id :: Least(times, id)
    decreases |times|
  {
    var id :| id in times;
    var rest := times - {id};
    if rest == map[] {
      forall other | other in times ensures other == id {
        assert other == id || other in rest;
      }
      assert Least(times, id);
    } else {
      assert rest.Keys == times.Keys - {id};
      LeastExists(rest);
      var least :| Least(rest, least);
      assert forall other | other in times :: other == id || other in rest;
      if Before(times, least, id) {
        assert Least(times, least);
      } else {
        assert Least(times, id);
      }
    }
  }

  /** ORDER BY time, id LIMIT n. */
  function Oldest(times: Times, n: nat): seq<nat>
    decreases n
  {
    if n == 0 || times == map[] then []
    else
      LeastExists(times);
      var id :| Least(times, id);
      [id] + Oldest(times - {id}, n - 1)
  }

  /** SKIP LOCKED: rows locked elsewhere look absent. */
  function Batch(times: Times, locked: set<nat>, n: nat): seq<nat> {
    Oldest(times - locked, n)
  }

  predicate Distinct(ids: seq<nat>) {
    forall i, j :: 0 <= i < j < |ids| ==> ids[i] != ids[j]
  }

  /** The batch is as large as it can be, holds eligible rows once each, and none of the others is older. */
  predicate OldestFirst(times: Times, ids: seq<nat>, n: nat) {
    && Distinct(ids)
    && (forall id | id in ids :: id in times)
    && |ids| == (if |times| < n then |times| else n)
    && (forall id, other | id in ids && other in times && other !in ids :: Before(times, id, other))
    && (forall i, j :: 0 <= i < j < |ids| ==> ids[i] in times && ids[j] in times && Before(times, ids[i], ids[j]))
  }

  lemma {:induction false} OldestIsOldestFirst(times: Times, n: nat)
    ensures OldestFirst(times, Oldest(times, n), n)
    decreases n
  {
    if n != 0 && times != map[] {
      LeastExists(times);
      var ids := Oldest(times, n);
      var id := ids[0];
      var rest := times - {id};
      assert Least(times, id);
      OldestIsOldestFirst(rest, n - 1);
      assert ids == [id] + Oldest(rest, n - 1);
      OldestStep(times, id, Oldest(rest, n - 1), n);
    }
  }

  lemma OldestStep(times: Times, id: nat, ids: seq<nat>, n: nat)
    requires n != 0 && Least(times, id) && OldestFirst(times - {id}, ids, n - 1)
    ensures OldestFirst(times, [id] + ids, n)
  {
    var rest, all := times - {id}, [id] + ids;
    assert rest.Keys == times.Keys - {id};
    assert |rest| == |times| - 1;
    forall i, j | 0 <= i < j < |all| ensures all[i] != all[j] && all[i] in times && all[j] in times
        && Before(times, all[i], all[j]) {
      assert all[j] == ids[j - 1] && ids[j - 1] in ids;
      if i > 0 {
        assert all[i] == ids[i - 1] && ids[i - 1] in ids;
      }
    }
    forall c | c in ids ensures c in all {
      var i :| 0 <= i < |ids| && ids[i] == c;
      assert all[i + 1] == c;
    }
    forall a, b | a in all && b in times && b !in all ensures Before(times, a, b) {
      assert b != id by { assert all[0] == id; }
      assert b in rest && b !in ids;
      if a != id {
        var i :| 0 <= i < |all| && all[i] == a;
        assert ids[i - 1] == a;
      }
    }
  }

  lemma BatchRows(times: Times, locked: set<nat>, n: nat)
    ensures var ids := Batch(times, locked, n);
            Distinct(ids) && forall i :: 0 <= i < |ids| ==> ids[i] in times && ids[i] !in locked
  {
    var ids := Oldest(times - locked, n);
    OldestIsOldestFirst(times - locked, n);
    hide Oldest;
    forall i | 0 <= i < |ids| ensures ids[i] in times - locked {
      assert ids[i] in ids;
    }
  }

  /** In the batch's own terms: who is in it, in which order, and what it means to be left out. */
  lemma BatchTakes(times: Times, locked: set<nat>, n: nat)
    ensures var ids := Batch(times, locked, n);
            && Distinct(ids) && |ids| <= n
            && (forall i :: 0 <= i < |ids| ==> ids[i] in times && ids[i] !in locked)
            && (forall i, j :: 0 <= i < j < |ids| ==>
                  times[ids[i]] < times[ids[j]] || (times[ids[i]] == times[ids[j]] && ids[i] < ids[j]))
            && forall id | id in times && id !in locked && id !in ids ::
                 |ids| == n && forall i :: 0 <= i < |ids| ==>
                   times[ids[i]] < times[id] || (times[ids[i]] == times[id] && ids[i] < id)
  {
    var open, ids := times - locked, Batch(times, locked, n);
    BatchRows(times, locked, n);
    OldestIsOldestFirst(open, n);
    hide Oldest;
    forall id | id in times && id !in locked && id !in ids
      ensures |ids| == n && forall i :: 0 <= i < |ids| ==>
                times[ids[i]] < times[id] || (times[ids[i]] == times[id] && ids[i] < id)
    {
      assert id in open;
      if |ids| < n {
        assert |ids| == |open.Keys|;
        IdsAreAll(open.Keys, ids);
      }
      forall i | 0 <= i < |ids|
        ensures times[ids[i]] < times[id] || (times[ids[i]] == times[id] && ids[i] < id)
      {
        assert Before(open, ids[i], id);
      }
    }
    forall i, j | 0 <= i < j < |ids|
      ensures times[ids[i]] < times[ids[j]] || (times[ids[i]] == times[ids[j]] && ids[i] < ids[j])
    {
      assert Before(open, ids[i], ids[j]);
    }
  }

  lemma {:induction false} IdsAreAll(all: set<nat>, ids: seq<nat>)
    requires Distinct(ids) && |ids| == |all| && forall id | id in ids :: id in all
    ensures forall id | id in all :: id in ids
  {
    if ids != [] {
      var n := |ids| - 1;
      assert ids[n] in ids;
      IdsAreAll(all - {ids[n]}, ids[..n]);
      assert forall id | id in all :: id == ids[n] || id in all - {ids[n]};
    }
  }

  /** With `n` positive, the oldest row that nobody has locked is always taken: none waits for ever behind others. */
  lemma OldestIsTaken(times: Times, locked: set<nat>, n: nat, id: nat)
    requires n >= 1 && Least(times - locked, id)
    ensures id in Batch(times, locked, n)
  {
    OldestIsOldestFirst(times - locked, n);
    var ids := Batch(times, locked, n);
    assert ids[0] in ids;
    assert id !in ids ==> Before(times - locked, ids[0], id);
    assert Before(times - locked, id, ids[0]);
  }
}
