/** What holds in every reachable state and along every run of the lifecycle. */
module Outcomes {
  import opened Domain
  import opened Verdicts
  import opened Lifecycle
  import opened LifecycleInvariant
  import opened Accounting
  import opened LifecycleRuns
  import J = ImportJobs

  // --- Ownership --------------------------------------------------------------------------------

  /**
   * A pending import can be claimed and nobody owns it; one in progress has a token, and a heartbeat
   * for the watchdog to find it by; an owner is alone and remembers the row's attempt count.
   */
  lemma OwnershipIsSound(c: Config, s: State)
    requires Configured(c) && Reachable(c, s)
    ensures s.job.attemptCount <= c.maxAttempts == s.job.maxAttempts
    ensures s.job.status == J.PENDING ==> J.Claimable(s.job) && s.job.processingToken.None?
    ensures s.job.status == J.PROCESSING ==> s.job.processingToken.Some? && s.job.lastHeartbeatAt.Some?
    ensures s.job.status == J.FAILED <==> s.job.failureReason.Some?
    ensures forall w | w in s.workers && HasClaim(s.workers[w]) && J.Owned(s.job, s.workers[w].phase.claim.token) ::
              s.workers[w].phase.claim.attempt == s.job.attemptCount
    ensures forall w, x | w in s.workers && x in s.workers && HasClaim(s.workers[w]) && HasClaim(s.workers[x])
                       && J.Owned(s.job, s.workers[w].phase.claim.token)
                           && J.Owned(s.job, s.workers[x].phase.claim.token) ::
              w == x
  {
    ReachableInv(c, s);
  }

  /** Without retries made before a claim, Celery never refuses the retry of a requeued import. */
  lemma RequeuedMayRetry(c: Config, s: State, w: WorkerId)
    requires Configured(c) && Reachable(c, s)
    requires w in s.workers && s.workers[w].phase.Requeued? && s.preClaimRetries == 0
    ensures MayRetry(c, s.workers[w].message)
  {
    ReachableInv(c, s);
    assert ClaimInv(c, s, s.workers[w]);
  }

  // --- Accounting -------------------------------------------------------------------------------

  function CommittedRows(c: Config, s: State): seq<PreparedRow>
    requires |s.stored.found| <= |c.chunks|
  {
    Flatten(c.chunks[..|s.stored.found|])
  }

  lemma {:induction false} FlattenPrefixNumbers(c: Config, k: nat)
    requires DistinctNumbers(Flatten(c.chunks)) && k <= |c.chunks|
    ensures DistinctNumbers(Flatten(c.chunks[..k]))
    ensures Flatten(c.chunks[..k]) <= Flatten(c.chunks)
    decreases |c.chunks| - k
  {
    if k == |c.chunks| {
      assert c.chunks[..k] == c.chunks;
    } else {
      FlattenPrefixNumbers(c, k + 1);
      assert c.chunks[..k + 1][..k] == c.chunks[..k];
      var longer, rows := Flatten(c.chunks[..k + 1]), Flatten(c.chunks[..k]);
      assert longer == rows + c.chunks[k];
      assert forall i :: 0 <= i < |rows| ==> rows[i] == longer[i];
    }
  }

  lemma NumbersConcat(a: seq<PreparedRow>, b: seq<PreparedRow>)
    ensures Numbers(a + b) == Numbers(a) + Numbers(b)
    ensures DistinctNumbers(a + b) ==> Numbers(a) !! Numbers(b) && DistinctNumbers(a) && DistinctNumbers(b)
  {
    var all := a + b;
    assert forall i :: 0 <= i < |a| ==> all[i] == a[i];
    assert forall i :: 0 <= i < |b| ==> all[|a| + i] == b[i];
    assert forall r | r in all :: r in a || r in b;
    assert forall r | r in a :: r in all;
    assert forall r | r in b :: r in all;
  }

  /** The replayed rows split the rows of the committed chunks into shipments and failures. */
  lemma {:induction false} ReplayPartitioned(c: Config, found: seq<set<Code>>)
    requires DistinctNumbers(Flatten(c.chunks)) && |found| <= |c.chunks|
    ensures Partitioned(Replay(c, found), Numbers(Flatten(c.chunks[..|found|])))
  {
    if found == [] {
      assert ValidNumbers([]) == ErrorNumbers([]) == {};
    } else {
      var k := |found| - 1;
      var rows := Flatten(c.chunks[..k]);
      assert c.chunks[..k + 1][..k] == c.chunks[..k];
      ReplayPartitioned(c, found[..k]);
      FlattenPrefixNumbers(c, k + 1);
      NumbersConcat(rows, c.chunks[k]);
      JudgePartitioned(c.id, c.chunks[k], SeenBefore(c, k), found[k]);
      PartitionedThen(Replay(c, found[..k]), Judge(c.id, c.chunks[k], SeenBefore(c, k), found[k]),
        Numbers(rows), Numbers(c.chunks[k]));
    }
  }

  lemma RowNumbersOfErrors(errors: seq<ErrorRow>)
    ensures RowNumbers(multiset(errors)) == ErrorNumbers(errors)
  {
    assert forall e :: e in multiset(errors) <==> e in errors;
  }

  /** The counters agree with the tables in every reachable state, failed and requeued imports included. */
  lemma CountersMatchTables(c: Config, s: State)
    requires Configured(c) && Reachable(c, s)
    ensures s.job.successCount == |s.stored.shipments|
    ensures s.job.failedCount == |RowNumbers(s.stored.errors)|
    ensures s.job.totalRows == s.job.processedRows == s.job.successCount + s.job.failedCount
    ensures DistinctCodes(s.stored.shipments)
  {
    ReachableInv(c, s);
    OwnCodesSeen(c, s);
    ReplayPartitioned(c, s.stored.found);
    RowNumbersOfErrors(Replay(c, s.stored.found).errors);
  }

  /** A shipment of row `row`: it carries the row's own data and number. */
  predicate StemsFrom(id: ImportId, v: ValidRow, row: PreparedRow) {
    v.rowNumber == row.row.number && row.draft == Some(v.shipment.draft) && v.shipment.importId == id
  }

  predicate AllStem(id: ImportId, valid: seq<ValidRow>, rows: seq<PreparedRow>) {
    forall v | v in valid :: exists row :: row in rows && StemsFrom(id, v, row)
  }

  lemma {:induction false} JudgeStems(id: ImportId, rows: seq<PreparedRow>, seen: set<Code>, existing: set<Code>)
    ensures AllStem(id, Judge(id, rows, seen, existing).valid, rows)
  {
    if rows != [] {
      var front, row := rows[..|rows| - 1], rows[|rows| - 1];
      JudgeStems(id, front, seen, existing);
      var before := Judge(id, front, seen, existing).valid;
      forall v | v in Judge(id, rows, seen, existing).valid ensures exists r :: r in rows && StemsFrom(id, v, r) {
        if v in before {
          var r :| r in front && StemsFrom(id, v, r);
          assert r in rows;
        } else {
          assert row in rows && StemsFrom(id, v, row);
        }
      }
    }
  }

  lemma {:induction false} ReplayStems(c: Config, found: seq<set<Code>>)
    requires |found| <= |c.chunks|
    ensures AllStem(c.id, Replay(c, found).valid, Flatten(c.chunks[..|found|]))
  {
    if found != [] {
      var k := |found| - 1;
      ReplayStems(c, found[..k]);
      JudgeStems(c.id, c.chunks[k], SeenBefore(c, k), found[k]);
      assert c.chunks[..k + 1][..k] == c.chunks[..k];
      var rows, before := Flatten(c.chunks[..k + 1]), Flatten(c.chunks[..k]);
      assert rows == before + c.chunks[k];
      forall v | v in Replay(c, found).valid ensures exists r :: r in rows && StemsFrom(c.id, v, r) {
        if v in Replay(c, found[..k]).valid {
          var r :| r in before && StemsFrom(c.id, v, r);
          assert r in rows;
        } else {
          var r :| r in c.chunks[k] && StemsFrom(c.id, v, r);
          assert r in rows;
        }
      }
    }
  }

  /**
   * Every row of the given rows is one stored shipment, made from that row, or has at least one stored
   * error; never both, and no other row is stored.
   */
  ghost predicate Exact(id: ImportId, rows: seq<PreparedRow>, stored: Stored) {
    exists valid: seq<ValidRow> ::
      && stored.shipments == ShipmentsOf(valid)
      && AllStem(id, valid, rows)
      && |ValidNumbers(valid)| == |valid|
      && ValidNumbers(valid) !! RowNumbers(stored.errors)
      && ValidNumbers(valid) + RowNumbers(stored.errors) == Numbers(rows)
  }

  lemma ReplayIsExact(c: Config, found: seq<set<Code>>, stored: Stored)
    requires DistinctNumbers(Flatten(c.chunks)) && |found| <= |c.chunks|
    requires stored.shipments == ShipmentsOf(Replay(c, found).valid)
    requires stored.errors == multiset(Replay(c, found).errors)
    ensures Exact(c.id, Flatten(c.chunks[..|found|]), stored)
  {
    hide *;
    ReplayPartitioned(c, found);
    ReplayStems(c, found);
    RowNumbersOfErrors(Replay(c, found).errors);
    ExactFromParts(c.id, Flatten(c.chunks[..|found|]), stored, Replay(c, found));
  }

  lemma ExactFromParts(id: ImportId, rows: seq<PreparedRow>, stored: Stored, v: Verdicts)
    requires stored.shipments == ShipmentsOf(v.valid) && RowNumbers(stored.errors) == ErrorNumbers(v.errors)
    requires Partitioned(v, Numbers(rows)) && AllStem(id, v.valid, rows)
    ensures Exact(id, rows, stored)
  {
    hide AllStem, ShipmentsOf;
  }

  /** In every reachable state the tables hold exactly the rows of the chunks committed since the last reset. */
  lemma TablesAreExact(c: Config, s: State)
    requires Configured(c) && Reachable(c, s)
    ensures |s.stored.found| <= |c.chunks|
    ensures Exact(c.id, CommittedRows(c, s), s.stored)
    ensures s.job.status == J.COMPLETED ==> Exact(c.id, Flatten(c.chunks), s.stored)
  {
    ReachableInv(c, s);
    hide Exact, Replay, Reachable, JobInv, WorkersInv, RetriesInv, BoxInv, ProgressInv;
    StoredIsExact(c, s);
  }

  lemma StoredIsExact(c: Config, s: State)
    requires DistinctNumbers(Flatten(c.chunks)) && StoredInv(c, s)
    ensures Exact(c.id, CommittedRows(c, s), s.stored)
    ensures s.job.status == J.COMPLETED ==> Exact(c.id, Flatten(c.chunks), s.stored)
  {
    hide Exact, Replay, DistinctNumbers;
    ReplayIsExact(c, s.stored.found, s.stored);
    if s.job.status == J.COMPLETED {
      assert c.chunks[..|s.stored.found|] == c.chunks;
    }
  }

  // --- The rows of a file, whatever was found chunk by chunk -------------------------------------

  /** The codes found in the database that mattered: each at the chunk in which it first occurs. */
  function FirstFound(c: Config, found: seq<set<Code>>): set<Code>
    requires |found| <= |c.chunks|
  {
    if found == [] then {}
    else
      var k := |found| - 1;
      FirstFound(c, found[..k]) + found[k] * (CodesOf(c.chunks[k]) - SeenBefore(c, k))
  }

  lemma {:induction false} FirstFoundBounds(c: Config, found: seq<set<Code>>, all: set<Code>)
    requires |found| <= |c.chunks|
    ensures FirstFound(c, found) <= SeenBefore(c, |found|)
    ensures (forall k :: 0 <= k < |found| ==> found[k] <= all) ==> FirstFound(c, found) <= all
  {
    if found != [] {
      var k := |found| - 1;
      FirstFoundBounds(c, found[..k], all);
      SeenNext(c, k);
      hide SeenBefore, CodesOf;
      assert (forall j :: 0 <= j < |found| ==> found[j] <= all) ==> found[k] <= all;
    }
  }

  /** Lookups chunk by chunk amount to one lookup for the whole file: no code is asked for twice. */
  lemma ReplayIsRowwise(c: Config, found: seq<set<Code>>)
    requires |found| <= |c.chunks|
    ensures var rows := Flatten(c.chunks[..|found|]);
            Replay(c, found) == Rowwise(c.id, rows, FirstFound(c, found), |rows|)
  {
    var rows := Flatten(c.chunks[..|found|]);
    ReplayIsJudged(c, found);
    JudgeIsRowwise(c.id, rows, FirstFound(c, found), |rows|);
    assert rows[..|rows|] == rows;
  }

  lemma {:induction false} ReplayIsJudged(c: Config, found: seq<set<Code>>)
    requires |found| <= |c.chunks|
    ensures Replay(c, found) == Judge(c.id, Flatten(c.chunks[..|found|]), {}, FirstFound(c, found))
  {
    hide *;
    if found == [] {
      NothingFound(c);
    } else {
      var front, last := found[..|found| - 1], found[|found| - 1];
      assert found == front + [last];
      ReplayIsJudged(c, front);
      ReplayNext(c, front, last);
      OneMoreLookup(c, front, last);
    }
  }

  lemma NothingFound(c: Config)
    ensures Replay(c, []) == Judge(c.id, Flatten(c.chunks[..0]), {}, FirstFound(c, []))
  {
  }

  lemma FirstFoundNext(c: Config, found: seq<set<Code>>, more: set<Code>)
    requires |found| < |c.chunks|
    ensures FirstFound(c, found + [more]) ==
            FirstFound(c, found) + more * (CodesOf(c.chunks[|found|]) - SeenBefore(c, |found|))
  {
    assert (found + [more])[..|found|] == found;
  }

  lemma OneMoreLookup(c: Config, found: seq<set<Code>>, more: set<Code>)
    requires |found| < |c.chunks|
    ensures var k := |found|;
            Judge(c.id, Flatten(c.chunks[..k]), {}, FirstFound(c, found))
              .Then(Judge(c.id, c.chunks[k], SeenBefore(c, k), more)) ==
            Judge(c.id, Flatten(c.chunks[..k + 1]), {}, FirstFound(c, found + [more]))
  {
    var k, rows, chunk := |found|, Flatten(c.chunks[..|found|]), c.chunks[|found|];
    var before, after := FirstFound(c, found), FirstFound(c, found + [more]);
    FirstFoundNext(c, found, more);
    FirstFoundBounds(c, found, {});
    assert c.chunks[..k + 1][..k] == c.chunks[..k];
    assert Flatten(c.chunks[..k + 1]) == rows + chunk;
    assert SeenBefore(c, k) == CodesOf(rows);
    hide *;
    JudgeLookup(c.id, rows, {}, before, after);
    JudgeLookup(c.id, chunk, CodesOf(rows), more, after);
    JudgeConcat(c.id, rows, chunk, {}, after);
    assert {} + CodesOf(rows) == CodesOf(rows);
  }

  lemma StoredIsRowwise(c: Config, s: State)
    requires StoredInv(c, s)
    ensures |s.stored.found| <= |c.chunks|
    ensures var rows := CommittedRows(c, s);
            Tallied(s.job, s.stored, Rowwise(c.id, rows, FirstFound(c, s.stored.found), |rows|))
    ensures s.job.status == J.COMPLETED ==> CommittedRows(c, s) == Flatten(c.chunks)
  {
    hide Replay, Rowwise, FirstFound, Tallied;
    ReplayIsRowwise(c, s.stored.found);
    if s.job.status == J.COMPLETED {
      assert c.chunks[..|s.stored.found|] == c.chunks;
    }
  }

  /**
   * In every reachable state the import has stored exactly the row-by-row verdicts of the committed rows, for
   * the codes its lookups found, however often the other imports' codes changed between them.
   */
  lemma StoredRowsAreRowwise(c: Config, s: State)
    requires Configured(c) && Reachable(c, s)
    ensures |s.stored.found| <= |c.chunks|
    ensures var rows := CommittedRows(c, s);
            Tallied(s.job, s.stored, Rowwise(c.id, rows, FirstFound(c, s.stored.found), |rows|))
    ensures s.job.status == J.COMPLETED ==> CommittedRows(c, s) == Flatten(c.chunks)
  {
    ReachableInv(c, s);
    hide *;
    InvParts(c, s);
    AccountParts(c, s);
    StoredIsRowwise(c, s);
  }

  /** The totals `complete` writes are the counters the chunk commits have added up. */
  lemma OverwriteRefinesIncrement(c: Config, s: State, w: WorkerId, now: nat)
    requires Configured(c) && Reachable(c, s) && ChunkEnabled(c, s, w, CompleteImport(now))
    requires J.Owned(s.job, s.workers[w].phase.claim.token)
    ensures var job' := ChunkNext(c, s, w, CompleteImport(now)).job;
            && job'.status == J.COMPLETED
            && job'.totalRows == s.job.totalRows && job'.processedRows == s.job.processedRows
            && job'.successCount == s.job.successCount && job'.failedCount == s.job.failedCount
  {
    ReachableInv(c, s);
    assert ProgressInv(c, s, s.workers[w].phase);
  }

  /** An owner's lookups only ever find codes of other imports, in the first lookup and in every race round. */
  lemma RetryNeverCollidesWithItself(c: Config, s: State, w: WorkerId, others: set<Code>)
    requires Configured(c) && Reachable(c, s)
    requires w in s.workers && HasClaim(s.workers[w]) && J.Owned(s.job, s.workers[w].phase.claim.token)
    ensures ChunkEnabled(c, s, w, LookUpChunk(others)) ==>
              LookUp(c, s.stored.shipments, s.workers[w].phase.done, others) <= others
    ensures s.workers[w].phase.Conflicted? ==>
              ValidCodes(s.workers[w].phase.result.validRows) * (others + CodeSet(s.stored.shipments)) <= others
  {
    ReachableInv(c, s);
    OwnCodesSeen(c, s);
    var phase := s.workers[w].phase;
    assert ProgressInv(c, s, phase);
    if phase.Conflicted? {
      JudgeCounts(c.id, c.chunks[phase.done], SeenBefore(c, phase.done), phase.found);
      assert phase.result.validRows == Judge(c.id, c.chunks[phase.done], SeenBefore(c, phase.done), phase.found).valid;
    }
  }
}
