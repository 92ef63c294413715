/**
 * The row-by-row meaning of validation: which rows become shipments and which become errors,
 * given the codes already seen in the file and the codes found in the database.
 */
module Verdicts {
  import opened Domain
  import opened Jsonb

  datatype Verdicts = Verdicts(valid: seq<ValidRow>, errors: seq<ErrorRow>, failed: nat) {
    function Then(next: Verdicts): Verdicts {
      Verdicts(valid + next.valid, errors + next.errors, failed + next.failed)
    }
  }

  const NO_ROWS := Verdicts([], [], 0)

  function CodesOf(rows: seq<PreparedRow>): set<Code> {
    set row | row in rows && row.code.Some? :: row.code.value
  }

  function DuplicateIssue(code: Option<Code>, seen: set<Code>, existing: set<Code>): seq<Issue> {
    if code.None? then []
    else if code.value in seen then [DUPLICATE_IN_FILE]
    else if code.value in existing then [DUPLICATE_IN_DATABASE]
    else []
  }

  function RowIssues(row: PreparedRow, seen: set<Code>, existing: set<Code>): seq<Issue> {
    row.issues + DuplicateIssue(row.code, seen, existing)
  }

  function RawData(row: WorkbookRow): Value {
    Dict(row.items)
  }

  /** One error row for each issue, carrying the normalised raw data. */
  function ErrorRows(id: ImportId, rowNumber: nat, raw: Value, issues: seq<Issue>): seq<ErrorRow> {
    seq(|issues|, i requires 0 <= i < |issues| => ErrorRow(id, rowNumber, issues[i], Safe(raw)))
  }

  function JudgeRow(id: ImportId, row: PreparedRow, issues: seq<Issue>): Verdicts
    requires issues == [] ==> row.draft.Some?
  {
    if issues == [] then
      Verdicts([ValidRow(Shipment(id, row.draft.value), row.row.number, RawData(row.row))], [], 0)
    else
      Verdicts([], ErrorRows(id, row.row.number, RawData(row.row), issues), 1)
  }

  /** The rows are judged in file order; `seen` grows with every code met, valid row or not. */
  function Judge(id: ImportId, rows: seq<PreparedRow>, seen: set<Code>, existing: set<Code>): Verdicts {
    if rows == [] then NO_ROWS
    else
      var n := |rows| - 1;
      Judge(id, rows[..n], seen, existing)
        .Then(JudgeRow(id, rows[n], RowIssues(rows[n], seen + CodesOf(rows[..n]), existing)))
  }

  function ShipmentsOf(valid: seq<ValidRow>): (r: seq<Shipment>)
    ensures |r| == |valid|
    ensures forall i :: 0 <= i < |valid| ==> r[i] == valid[i].shipment
  {
    if valid == [] then [] else ShipmentsOf(valid[..|valid| - 1]) + [valid[|valid| - 1].shipment]
  }

  function ValidCodes(valid: seq<ValidRow>): set<Code> {
    set v | v in valid :: v.shipment.draft.code
  }

  function ResultOf(totalRows: nat, v: Verdicts): ChunkResult {
    ChunkResult(totalRows, |v.valid| + v.failed, |v.valid|, v.failed, ShipmentsOf(v.valid), v.errors, v.valid)
  }

  /** Error rows are a bag in the table: results that store the same rows are the same. */
  predicate SameResult(a: ChunkResult, b: ChunkResult) {
    a.(errors := []) == b.(errors := []) && multiset(a.errors) == multiset(b.errors)
  }

  /** The issues of a row that has these of its own, and whose code was met before, or is stored. */
  function AllIssues(own: seq<Issue>, repeated: bool, stored: bool): seq<Issue> {
    if repeated then own + [Issue("shipment_code", "Shipment code must be unique within the import file.")]
    else if stored then own + [Issue("shipment_code", "Shipment code already exists in the database.")]
    else own
  }

  /** The verdict on a row with these issues, in its own fields. */
  predicate IsVerdict(id: ImportId, row: PreparedRow, issues: seq<Issue>, v: Verdicts) {
    if issues == [] then
      && row.draft.Some? && v.failed == 0 && v.errors == []
      && v.valid == [ValidRow(Shipment(id, row.draft.value), row.row.number, Dict(row.row.items))]
    else
      && v.valid == [] && v.failed == 1 && |v.errors| == |issues|
      && forall k :: 0 <= k < |issues| ==>
           && v.errors[k].importId == id && v.errors[k].rowNumber == row.row.number
           && v.errors[k].issue == issues[k] && v.errors[k].rawData == Safe(Dict(row.row.items))
  }

  /**
   * Every row adds its own verdict: without an issue it is a shipment of the import, and otherwise it has one error
   * for each issue, in their order, under its number and with its normalised values. The last issue is a code met
   * before in the file, or else found in the database.
   */
  lemma VerdictOnRow(id: ImportId, rows: seq<PreparedRow>, seen: set<Code>, existing: set<Code>, i: nat)
    returns (v: Verdicts)
    requires i < |rows|
    ensures var row, code := rows[i], rows[i].code;
            var repeated := code.Some? && (code.value in seen || exists j :: 0 <= j < i && rows[j].code == code);
            IsVerdict(id, row, AllIssues(row.issues, repeated, code.Some? && code.value in existing), v)
    ensures Judge(id, rows[..i + 1], seen, existing) == Judge(id, rows[..i], seen, existing).Then(v)
  {
    var row, front := rows[i], rows[..i];
    assert rows[..i + 1] == front + [row];
    v := NextVerdict(id, front, row, seen, existing);
    if row.code.Some? {
      MetBefore(rows, i, row.code.value);
    }
    hide Judge, CodesOf, JudgeRow, IsVerdict;
    JudgeSnoc(id, front, row, seen, existing);
    RowIsJudged(id, row, RowIssues(row, seen + CodesOf(front), existing));
  }

  lemma RowIsJudged(id: ImportId, row: PreparedRow, issues: seq<Issue>)
    requires issues == [] ==> row.draft.Some?
    ensures IsVerdict(id, row, issues, JudgeRow(id, row, issues))
  {
    hide Safe;
  }

  lemma MetBefore(rows: seq<PreparedRow>, i: nat, code: Code)
    requires i <= |rows|
    ensures code in CodesOf(rows[..i]) <==> exists j :: 0 <= j < i && rows[j].code == Some(code)
  {
    if j :| 0 <= j < i && rows[j].code == Some(code) {
      assert rows[..i][j] == rows[j] && rows[j] in rows[..i];
    }
    if code in CodesOf(rows[..i]) {
      var row :| row in rows[..i] && row.code == Some(code);
      var j :| 0 <= j < i && rows[..i][j] == row;
    }
  }

  // --- Splitting a file into chunks -------------------------------------------------------------

  lemma CodesOfConcat(a: seq<PreparedRow>, b: seq<PreparedRow>)
    ensures CodesOf(a + b) == CodesOf(a) + CodesOf(b)
  {
    assert forall row | row in a + b :: row in a || row in b;
    assert forall row | row in a :: row in a + b;
    assert forall row | row in b :: row in a + b;
  }

  lemma ThenAssociative(a: Verdicts, b: Verdicts, c: Verdicts)
    ensures a.Then(b).Then(c) == a.Then(b.Then(c))
  {
    assert a.valid + b.valid + c.valid == a.valid + (b.valid + c.valid);
    assert a.errors + b.errors + c.errors == a.errors + (b.errors + c.errors);
  }

  /** The verdict on one more row. */
  function NextVerdict(id: ImportId, rows: seq<PreparedRow>, row: PreparedRow, seen: set<Code>,
          existing: set<Code>): Verdicts {
    JudgeRow(id, row, RowIssues(row, seen + CodesOf(rows), existing))
  }

  lemma JudgeSnoc(id: ImportId, rows: seq<PreparedRow>, row: PreparedRow, seen: set<Code>, existing: set<Code>)
    ensures Judge(id, rows + [row], seen, existing) ==
            Judge(id, rows, seen, existing).Then(NextVerdict(id, rows, row, seen, existing))
    ensures CodesOf(rows + [row]) == CodesOf(rows) + (if row.code.Some? then {row.code.value} else {})
  {
    assert (rows + [row])[..|rows|] == rows;
    CodesOfConcat(rows, [row]);
  }

  /** Judging a concatenation is judging the first part, then the second with the first part's codes seen. */
  lemma {:induction false} JudgeConcat(
    id: ImportId, a: seq<PreparedRow>, b: seq<PreparedRow>, seen: set<Code>, existing: set<Code>)
    ensures Judge(id, a + b, seen, existing) ==
            Judge(id, a, seen, existing).Then(Judge(id, b, seen + CodesOf(a), existing))
    decreases |b|, 1
  {
    if b == [] {
      assert a + b == a;
      var v := Judge(id, a, seen, existing);
      assert v.Then(NO_ROWS) == v;
    } else {
      var b', last := b[..|b| - 1], b[|b| - 1];
      assert b == b' + [last];
      assert a + b == (a + b') + [last];
      JudgeConcatStep(id, a, b', last, seen, existing);
    }
  }

  lemma {:induction false} JudgeConcatStep(
    id: ImportId, a: seq<PreparedRow>, b: seq<PreparedRow>, last: PreparedRow, seen: set<Code>, existing: set<Code>)
    ensures Judge(id, a + b + [last], seen, existing) ==
            Judge(id, a, seen, existing).Then(Judge(id, b + [last], seen + CodesOf(a), existing))
    decreases |b| + 1, 0
  {
    var after := seen + CodesOf(a);
    var va, vb := Judge(id, a, seen, existing), Judge(id, b, after, existing);
    JudgeConcat(id, a, b, seen, existing);
    JudgeSnoc(id, a + b, last, seen, existing);
    JudgeSnoc(id, b, last, after, existing);
    var next := NextVerdict(id, b, last, after, existing);
    CodesOfConcat(a, b);
    assert seen + CodesOf(a + b) == after + CodesOf(b);
    assert next == NextVerdict(id, a + b, last, seen, existing);
    ThenAssociative(va, vb, next);
  }

  /** Only the codes of these rows that were not seen before matter in the database lookup. */
  lemma {:induction false} JudgeLookup(
    id: ImportId, rows: seq<PreparedRow>, seen: set<Code>, found: set<Code>, found': set<Code>)
    requires (CodesOf(rows) - seen) * found == (CodesOf(rows) - seen) * found'
    ensures Judge(id, rows, seen, found) == Judge(id, rows, seen, found')
  {
    if rows != [] {
      hide *;
      var front, row := rows[..|rows| - 1], rows[|rows| - 1];
      assert rows == front + [row];
      JudgeSnoc(id, front, row, seen, found);
      JudgeSnoc(id, front, row, seen, found');
      var last := if row.code.Some? then {row.code.value} else {};
      SameFound(CodesOf(front), last, seen, found, found');
      JudgeLookup(id, front, seen, found, found');
      NextLookup(id, front, row, seen, found, found');
    }
  }

  lemma SameFound(codes: set<Code>, more: set<Code>, seen: set<Code>, found: set<Code>, found': set<Code>)
    requires (codes + more - seen) * found == (codes + more - seen) * found'
    ensures (codes - seen) * found == (codes - seen) * found' && (more - seen) * found == (more - seen) * found'
  {
    assert (codes - seen) * found == (codes - seen) * ((codes + more - seen) * found);
    assert (codes - seen) * found' == (codes - seen) * ((codes + more - seen) * found');
    assert (more - seen) * found == (more - seen) * ((codes + more - seen) * found);
    assert (more - seen) * found' == (more - seen) * ((codes + more - seen) * found');
  }

  lemma NextLookup(id: ImportId, rows: seq<PreparedRow>, row: PreparedRow, seen: set<Code>, found: set<Code>,
                   found': set<Code>)
    requires row.code.Some? ==> ({row.code.value} - seen) * found == ({row.code.value} - seen) * found'
    ensures NextVerdict(id, rows, row, seen, found) == NextVerdict(id, rows, row, seen, found')
  {
    hide JudgeRow, CodesOf;
    if row.code.Some? && row.code.value !in seen {
      var c := row.code.value;
      assert c in ({c} - seen) * found <==> c in ({c} - seen) * found';
    }
  }

  // --- What the verdicts satisfy ----------------------------------------------------------------

  predicate Accounted(v: Verdicts, count: nat, codes: set<Code>) {
    && |v.valid| + v.failed == count
    && ValidCodes(v.valid) <= codes
    && DistinctCodes(ShipmentsOf(v.valid))
  }

  /** Every row is counted once, and a shipment's code is new to the file and to the database. */
  lemma {:induction false} JudgeCounts(id: ImportId, rows: seq<PreparedRow>, seen: set<Code>, existing: set<Code>)
    ensures Accounted(Judge(id, rows, seen, existing), |rows|, CodesOf(rows) - seen - existing)
  {
    if rows == [] {
      assert Accounted(NO_ROWS, 0, {});
    } else {
      hide *;
      var front, row := rows[..|rows| - 1], rows[|rows| - 1];
      assert rows == front + [row];
      JudgeCounts(id, front, seen, existing);
      JudgeCountsStep(id, front, row, seen, existing);
    }
  }

  lemma JudgeCountsStep(id: ImportId, front: seq<PreparedRow>, row: PreparedRow, seen: set<Code>, existing: set<Code>)
    requires Accounted(Judge(id, front, seen, existing), |front|, CodesOf(front) - seen - existing)
    ensures Accounted(Judge(id, front + [row], seen, existing), |front + [row]|,
        CodesOf(front + [row]) - seen - existing)
  {
    hide *;
    JudgeSnoc(id, front, row, seen, existing);
    NextVerdictFacts(id, front, row, seen, existing);
    AppendValid(Judge(id, front, seen, existing), NextVerdict(id, front, row, seen, existing), |front|,
      CodesOf(front) - seen - existing, CodesOf(front + [row]) - seen - existing);
  }

  lemma NextVerdictFacts(id: ImportId, rows: seq<PreparedRow>, row: PreparedRow, seen: set<Code>, existing: set<Code>)
    ensures var next := NextVerdict(id, rows, row, seen, existing);
            && |next.valid| + next.failed == 1
            && (next.valid == [] ==> ValidCodes(next.valid) == {})
            && (next.valid != [] ==>
                  && row.code.Some?
                  && row.code.value !in seen + CodesOf(rows) + existing
                  && next.valid[0].shipment.draft.code == row.code.value
                  && ValidCodes(next.valid) == {row.code.value})
  {
    assert forall v: ValidRow :: ValidCodes([v]) == {v.shipment.draft.code};
  }

  lemma AppendValid(before: Verdicts, next: Verdicts, count: nat, codes: set<Code>, codes': set<Code>)
    requires Accounted(before, count, codes)
    requires |next.valid| + next.failed == 1
    requires ValidCodes(next.valid) !! codes
    requires codes + ValidCodes(next.valid) <= codes'
    ensures Accounted(before.Then(next), count + 1, codes')
  {
    var after := before.Then(next);
    assert forall i :: 0 <= i < |before.valid| ==> before.valid[i].shipment.draft.code in ValidCodes(before.valid);
    assert forall i :: 0 <= i < |next.valid| ==> next.valid[i].shipment.draft.code in ValidCodes(next.valid);
    assert forall i :: 0 <= i < |before.valid| ==> after.valid[i] == before.valid[i];
  }

  // --- Rows and their stored errors -------------------------------------------------------------

  function Numbers(rows: seq<PreparedRow>): set<nat> {
    set row | row in rows :: row.row.number
  }

  predicate DistinctNumbers(rows: seq<PreparedRow>) {
    forall i, j :: 0 <= i < j < |rows| ==> rows[i].row.number != rows[j].row.number
  }

  function ValidNumbers(valid: seq<ValidRow>): set<nat> {
    set v | v in valid :: v.rowNumber
  }

  function ErrorNumbers(errors: seq<ErrorRow>): set<nat> {
    set e | e in errors :: e.rowNumber
  }

  /** Every row is either a shipment or has errors, never both, and failures count rows, not errors. */
  predicate Partitioned(v: Verdicts, numbers: set<nat>) {
    && ValidNumbers(v.valid) + ErrorNumbers(v.errors) == numbers
    && ValidNumbers(v.valid) !! ErrorNumbers(v.errors)
    && |ErrorNumbers(v.errors)| == v.failed
    && |ValidNumbers(v.valid)| == |v.valid|
  }

  lemma ThenNumbers(a: Verdicts, b: Verdicts)
    ensures ValidNumbers(a.Then(b).valid) == ValidNumbers(a.valid) + ValidNumbers(b.valid)
    ensures ErrorNumbers(a.Then(b).errors) == ErrorNumbers(a.errors) + ErrorNumbers(b.errors)
  {
    var c := a.Then(b);
    assert forall v | v in c.valid :: v in a.valid || v in b.valid;
    assert forall e | e in c.errors :: e in a.errors || e in b.errors;
    assert forall v | v in a.valid || v in b.valid :: v in c.valid;
    assert forall e | e in a.errors || e in b.errors :: e in c.errors;
  }

  lemma PartitionedThen(a: Verdicts, b: Verdicts, na: set<nat>, nb: set<nat>)
    requires Partitioned(a, na) && Partitioned(b, nb) && na !! nb
    ensures Partitioned(a.Then(b), na + nb)
  {
    ThenNumbers(a, b);
    hide ValidNumbers, ErrorNumbers;
    PartsJoin(ValidNumbers(a.valid), ErrorNumbers(a.errors), ValidNumbers(b.valid), ErrorNumbers(b.errors), na, nb);
  }

  lemma PartsJoin(va: set<nat>, ea: set<nat>, vb: set<nat>, eb: set<nat>, na: set<nat>, nb: set<nat>)
    requires va + ea == na && va !! ea && vb + eb == nb && vb !! eb && na !! nb
    ensures (va + vb) + (ea + eb) == na + nb && (va + vb) !! (ea + eb)
    ensures |va + vb| == |va| + |vb| && |ea + eb| == |ea| + |eb|
  {
    assert va <= na && ea <= na && vb <= nb && eb <= nb;
    DisjointSizes(va, vb);
    DisjointSizes(ea, eb);
  }

  lemma DisjointSizes(a: set<nat>, b: set<nat>)
    requires a !! b
    ensures |a + b| == |a| + |b|
  {
  }

  lemma JudgeRowPartitioned(id: ImportId, row: PreparedRow, issues: seq<Issue>)
    requires issues == [] ==> row.draft.Some?
    ensures Partitioned(JudgeRow(id, row, issues), {row.row.number})
  {
    var v := JudgeRow(id, row, issues);
    if issues == [] {
      assert ValidNumbers(v.valid) == {row.row.number};
      assert ErrorNumbers(v.errors) == {};
    } else {
      assert v.errors[0].rowNumber == row.row.number;
      assert ErrorNumbers(v.errors) == {row.row.number};
      assert ValidNumbers(v.valid) == {};
    }
  }

  lemma NumbersSnoc(rows: seq<PreparedRow>, row: PreparedRow)
    ensures Numbers(rows + [row]) == Numbers(rows) + {row.row.number}
    ensures DistinctNumbers(rows + [row]) ==> DistinctNumbers(rows) && row.row.number !in Numbers(rows)
  {
    var all := rows + [row];
    assert forall i :: 0 <= i < |rows| ==> all[i] == rows[i];
    assert all[|rows|] == row;
    assert forall r | r in all :: r in rows || r == row;
    assert forall r | r in rows :: r in all;
  }

  lemma NextVerdictPartitioned(id: ImportId, rows: seq<PreparedRow>, row: PreparedRow, seen: set<Code>,
          existing: set<Code>)
    ensures Partitioned(NextVerdict(id, rows, row, seen, existing), {row.row.number})
  {
    JudgeRowPartitioned(id, row, RowIssues(row, seen + CodesOf(rows), existing));
  }

  lemma {:induction false} JudgePartitioned(id: ImportId, rows: seq<PreparedRow>, seen: set<Code>, existing: set<Code>)
    requires DistinctNumbers(rows)
    ensures Partitioned(Judge(id, rows, seen, existing), Numbers(rows))
  {
    if rows == [] {
      assert ValidNumbers([]) == ErrorNumbers([]) == {};
    } else {
      var front, row := rows[..|rows| - 1], rows[|rows| - 1];
      assert rows == front + [row];
      NumbersSnoc(front, row);
      JudgePartitioned(id, front, seen, existing);
      JudgeSnoc(id, front, row, seen, existing);
      NextVerdictPartitioned(id, front, row, seen, existing);
      PartitionedThen(Judge(id, front, seen, existing), NextVerdict(id, front, row, seen, existing),
        Numbers(front), {row.row.number});
    }
  }

  // --- The whole file, row by row ---------------------------------------------------------------

  /** An earlier row, valid or not, had the same code. */
  predicate FileDuplicate(rows: seq<PreparedRow>, i: nat)
    requires i < |rows|
  {
    rows[i].code.Some? && exists j :: 0 <= j < i && rows[j].code == rows[i].code
  }

  /** The issues of row `i` of a file, when the other imports hold the codes `held`. */
  function RowVerdict(rows: seq<PreparedRow>, i: nat, held: set<Code>): seq<Issue>
    requires i < |rows|
  {
    rows[i].issues +
    if rows[i].code.None? then []
    else if FileDuplicate(rows, i) then [DUPLICATE_IN_FILE]
    else if rows[i].code.value in held then [DUPLICATE_IN_DATABASE]
    else []
  }

  function Rowwise(id: ImportId, rows: seq<PreparedRow>, held: set<Code>, n: nat): Verdicts
    requires n <= |rows|
  {
    if n == 0 then NO_ROWS
    else Rowwise(id, rows, held, n - 1).Then(JudgeRow(id, rows[n - 1], RowVerdict(rows, n - 1, held)))
  }

  lemma VerdictOfRow(rows: seq<PreparedRow>, i: nat, held: set<Code>)
    requires i < |rows|
    ensures RowIssues(rows[i], {} + CodesOf(rows[..i]), held) == RowVerdict(rows, i, held)
  {
    if rows[i].code.Some? {
      if FileDuplicate(rows, i) {
        var j :| 0 <= j < i && rows[j].code == rows[i].code;
        assert rows[..i][j] == rows[j];
      }
    }
  }

  lemma {:induction false} JudgeIsRowwise(id: ImportId, rows: seq<PreparedRow>, held: set<Code>, n: nat)
    requires n <= |rows|
    ensures Judge(id, rows[..n], {}, held) == Rowwise(id, rows, held, n)
  {
    hide *;
    if n == 0 {
      NothingIsRowwise(id, rows, held);
    } else {
      JudgeIsRowwise(id, rows, held, n - 1);
      RowwiseNext(id, rows, held, n - 1);
      JudgeNext(id, rows, held, n - 1);
    }
  }

  lemma NothingIsRowwise(id: ImportId, rows: seq<PreparedRow>, held: set<Code>)
    ensures Judge(id, rows[..0], {}, held) == Rowwise(id, rows, held, 0)
  {
  }

  lemma RowwiseNext(id: ImportId, rows: seq<PreparedRow>, held: set<Code>, n: nat)
    requires n < |rows|
    ensures Rowwise(id, rows, held, n + 1) ==
            Rowwise(id, rows, held, n).Then(JudgeRow(id, rows[n], RowVerdict(rows, n, held)))
  {
    hide JudgeRow, RowVerdict;
  }

  lemma JudgeNext(id: ImportId, rows: seq<PreparedRow>, held: set<Code>, n: nat)
    requires n < |rows|
    ensures Judge(id, rows[..n + 1], {}, held) ==
            Judge(id, rows[..n], {}, held).Then(JudgeRow(id, rows[n], RowVerdict(rows, n, held)))
  {
    hide Judge, RowVerdict, RowIssues, JudgeRow;
    assert rows[..n + 1] == rows[..n] + [rows[n]];
    JudgeSnoc(id, rows[..n], rows[n], {}, held);
    VerdictOfRow(rows, n, held);
  }

  // --- Streaming --------------------------------------------------------------------------------

  /**
   * Chunk by chunk, as the worker runs: each chunk's shipments are stored before the next chunk's
   * lookup, and the lookup asks only for codes the tracker has not seen.
   */
  function Stream(id: ImportId, chunks: seq<seq<PreparedRow>>, others: set<Code>): Verdicts {
    if chunks == [] then NO_ROWS
    else
      var n := |chunks| - 1;
      var before := Stream(id, chunks[..n], others);
      var seen := CodesOf(Flatten(chunks[..n]));
      var stored := others + ValidCodes(before.valid);
      before.Then(Judge(id, chunks[n], seen, (CodesOf(chunks[n]) - seen) * stored))
  }

  /** For every way of cutting a file into chunks, streaming gives the row-by-row verdicts of the whole file. */
  lemma {:induction false} StreamingRefinesFile(id: ImportId, chunks: seq<seq<PreparedRow>>, others: set<Code>)
    ensures var rows := Flatten(chunks);
            Stream(id, chunks, others) == Rowwise(id, rows, others, |rows|)
  {
    var rows := Flatten(chunks);
    if chunks != [] {
      var n := |chunks| - 1;
      var front, last := Flatten(chunks[..n]), chunks[n];
      StreamingRefinesFile(id, chunks[..n], others);
      JudgeIsRowwise(id, front, others, |front|);
      JudgeIsRowwise(id, rows, others, |rows|);
      assert front[..|front|] == front && rows[..|rows|] == rows;
      JudgeConcat(id, front, last, {}, others);
      var before := Judge(id, front, {}, others);
      JudgeCounts(id, front, {}, others);
      var seen := CodesOf(front);
      assert {} + seen == seen;
      JudgeLookup(id, last, seen, (CodesOf(last) - seen) * (others + ValidCodes(before.valid)), others);
    }
  }

  // --- Reclassification after a duplicate race --------------------------------------------------

  function Retain(valid: seq<ValidRow>, taken: set<Code>): seq<ValidRow> {
    if valid == [] then []
    else
      var last := valid[|valid| - 1];
      Retain(valid[..|valid| - 1], taken) + if last.shipment.draft.code in taken then [] else [last]
  }

  function TakenErrors(id: ImportId, valid: seq<ValidRow>, taken: set<Code>): seq<ErrorRow> {
    if valid == [] then []
    else
      var last := valid[|valid| - 1];
      TakenErrors(id, valid[..|valid| - 1], taken) +
      if last.shipment.draft.code in taken
      then ErrorRows(id, last.rowNumber, last.rawData, [DUPLICATE_IN_DATABASE])
      else []
  }

  lemma {:induction false} RetainSize(valid: seq<ValidRow>, taken: set<Code>)
    ensures |Retain(valid, taken)| <= |valid|
    ensures |Retain(valid, taken)| == |valid| <==> ValidCodes(valid) !! taken
    ensures ValidCodes(valid) !! taken ==> Retain(valid, taken) == valid
    ensures ValidCodes(Retain(valid, taken)) == ValidCodes(valid) - taken
  {
    if valid != [] {
      var front, last := valid[..|valid| - 1], valid[|valid| - 1];
      RetainSize(front, taken);
      assert Retain(valid, taken) == Retain(front, taken) + if last.shipment.draft.code in taken then [] else [last];
      assert valid == front + [last];
      hide *;
      RetainGrow(front, last, Retain(front, taken), taken);
    }
  }

  lemma RetainGrow(valid: seq<ValidRow>, last: ValidRow, kept: seq<ValidRow>, taken: set<Code>)
    requires |kept| <= |valid| && (|kept| == |valid| <==> ValidCodes(valid) !! taken)
    requires (ValidCodes(valid) !! taken ==> kept == valid) && ValidCodes(kept) == ValidCodes(valid) - taken
    ensures var all, kept' := valid + [last], kept + if last.shipment.draft.code in taken then [] else [last];
            && |kept'| <= |all| && (|kept'| == |all| <==> ValidCodes(all) !! taken)
            && (ValidCodes(all) !! taken ==> kept' == all) && ValidCodes(kept') == ValidCodes(all) - taken
  {
    ValidCodesSnoc(valid, last);
    ValidCodesSnoc(kept, last);
    hide ValidCodes;
    assert kept + [] == kept;
  }

  lemma ValidCodesSnoc(valid: seq<ValidRow>, last: ValidRow)
    ensures ValidCodes(valid + [last]) == ValidCodes(valid) + {last.shipment.draft.code}
  {
    assert forall v | v in valid + [last] :: v in valid || v == last;
    assert forall v | v in valid || v == last :: v in valid + [last];
  }

  /** The corrected result: rows whose codes were found stored become errors; nothing else changes. */
  function Reclassified(id: ImportId, r: ChunkResult, stored: set<Code>): ChunkResult {
    var taken := ValidCodes(r.validRows) * stored;
    if taken == {} then r
    else
      RetainSize(r.validRows, taken);
      var retained := Retain(r.validRows, taken);
      ChunkResult(r.totalRows, r.processedRows, |retained|, r.failedCount + (|r.validRows| - |retained|),
        ShipmentsOf(retained), r.errors + TakenErrors(id, r.validRows, taken), retained)
  }

  lemma ReclassifiedMeans(id: ImportId, r: ChunkResult, stored: set<Code>)
    ensures var taken := ValidCodes(r.validRows) * stored;
            && |Retain(r.validRows, taken)| <= |r.validRows|
            && Reclassified(id, r, stored) ==
               if taken == {} then r
               else
                 var retained := Retain(r.validRows, taken);
                 ChunkResult(r.totalRows, r.processedRows, |retained|, r.failedCount + (|r.validRows| - |retained|),
                   ShipmentsOf(retained), r.errors + TakenErrors(id, r.validRows, taken), retained)
  {
    RetainSize(r.validRows, ValidCodes(r.validRows) * stored);
  }

  /** No failing row would get a further issue if the codes `more` had been found as well. */
  predicate Harmless(rows: seq<PreparedRow>, seen: set<Code>, existing: set<Code>, more: set<Code>) {
    forall i | 0 <= i < |rows| ::
      var seenThere := seen + CodesOf(rows[..i]);
      RowIssues(rows[i], seenThere, existing) != [] ==>
        RowIssues(rows[i], seenThere, existing + more) == RowIssues(rows[i], seenThere, existing)
  }

  /** Codes of valid rows are harmless: a failing row with the same code is a file duplicate. */
  lemma ValidCodesAreHarmless(id: ImportId, rows: seq<PreparedRow>, seen: set<Code>, existing: set<Code>,
          more: set<Code>)
    requires more <= ValidCodes(Judge(id, rows, seen, existing).valid)
    ensures Harmless(rows, seen, existing, more)
  {
    forall i | 0 <= i < |rows| && RowIssues(rows[i], seen + CodesOf(rows[..i]), existing) != []
      ensures RowIssues(rows[i], seen + CodesOf(rows[..i]), existing + more) ==
              RowIssues(rows[i], seen + CodesOf(rows[..i]), existing)
    {
      var seenThere := seen + CodesOf(rows[..i]);
      if rows[i].code.Some? && rows[i].code.value !in seenThere && rows[i].code.value in more {
        FailingRowHidesItsCode(id, rows, i, seen, existing);
      }
    }
  }

  lemma ValidCodesThen(a: Verdicts, b: Verdicts)
    ensures ValidCodes(a.Then(b).valid) == ValidCodes(a.valid) + ValidCodes(b.valid)
  {
    assert forall v | v in a.valid + b.valid :: v in a.valid || v in b.valid;
    assert forall v | v in a.valid || v in b.valid :: v in a.valid + b.valid;
  }

  lemma FailingRowHidesItsCode(id: ImportId, rows: seq<PreparedRow>, i: nat, seen: set<Code>, existing: set<Code>)
    requires i < |rows| && rows[i].code.Some?
    requires rows[i].code.value !in seen + CodesOf(rows[..i])
    requires RowIssues(rows[i], seen + CodesOf(rows[..i]), existing) != []
    ensures rows[i].code.value !in ValidCodes(Judge(id, rows, seen, existing).valid)
  {
    hide *;
    var a, row, b := rows[..i], rows[i], rows[i + 1..];
    assert rows == (a + [row]) + b;
    JudgeConcat(id, a + [row], b, seen, existing);
    FailingRowHasNoCode(id, a, row, seen, existing);
    SeenRowHasNoCode(id, a, row, b, seen, existing);
    ValidCodesThen(Judge(id, a + [row], seen, existing), Judge(id, b, seen + CodesOf(a + [row]), existing));
  }

  lemma FailingRowHasNoCode(id: ImportId, a: seq<PreparedRow>, row: PreparedRow, seen: set<Code>, existing: set<Code>)
    requires row.code.Some? && row.code.value !in seen + CodesOf(a)
    requires RowIssues(row, seen + CodesOf(a), existing) != []
    ensures row.code.value !in ValidCodes(Judge(id, a + [row], seen, existing).valid)
  {
    JudgeSnoc(id, a, row, seen, existing);
    JudgeCounts(id, a, seen, existing);
    var next := NextVerdict(id, a, row, seen, existing);
    assert ValidCodes(next.valid) == {};
    ValidCodesThen(Judge(id, a, seen, existing), next);
  }

  lemma SeenRowHasNoCode(id: ImportId, a: seq<PreparedRow>, row: PreparedRow, b: seq<PreparedRow>, seen: set<Code>,
          existing: set<Code>)
    requires row.code.Some?
    ensures row.code.value !in ValidCodes(Judge(id, b, seen + CodesOf(a + [row]), existing).valid)
  {
    JudgeSnoc(id, a, row, seen, existing);
    JudgeCounts(id, b, seen + CodesOf(a + [row]), existing);
  }

  /** `w` is `v` after the rows holding the codes `taken` have been turned into errors. */
  predicate Corrected(id: ImportId, v: Verdicts, w: Verdicts, taken: set<Code>) {
    && w.valid == Retain(v.valid, taken)
    && multiset(w.errors) == multiset(v.errors) + multiset(TakenErrors(id, v.valid, taken))
    && |w.valid| + w.failed == |v.valid| + v.failed
  }

  lemma {:induction false} CorrectionConcat(id: ImportId, a: seq<ValidRow>, b: seq<ValidRow>, taken: set<Code>)
    ensures Retain(a + b, taken) == Retain(a, taken) + Retain(b, taken)
    ensures TakenErrors(id, a + b, taken) == TakenErrors(id, a, taken) + TakenErrors(id, b, taken)
    decreases |b|
  {
    if b == [] {
      assert a + b == a;
    } else {
      var n := |b| - 1;
      CorrectionConcat(id, a, b[..n], taken);
      assert (a + b)[..|a + b| - 1] == a + b[..n];
      assert (a + b)[|a + b| - 1] == b[n];
    }
  }

  lemma CorrectedThen(id: ImportId, v: Verdicts, w: Verdicts, v': Verdicts, w': Verdicts, taken: set<Code>)
    requires Corrected(id, v, w, taken) && Corrected(id, v', w', taken)
    ensures Corrected(id, v.Then(v'), w.Then(w'), taken)
  {
    CorrectionConcat(id, v.valid, v'.valid, taken);
  }

  lemma NextVerdictCorrected(
    id: ImportId, rows: seq<PreparedRow>, row: PreparedRow, seen: set<Code>, existing: set<Code>, more: set<Code>)
    requires Harmless(rows + [row], seen, existing, more)
    ensures Corrected(id, NextVerdict(id, rows, row, seen, existing), NextVerdict(id, rows, row, seen,
        existing + more), more)
  {
    var seenThere := seen + CodesOf(rows);
    assert (rows + [row])[..|rows|] == rows && (rows + [row])[|rows|] == row;
    var v := NextVerdict(id, rows, row, seen, existing);
    if RowIssues(row, seenThere, existing) == [] {
      assert v.valid == [] + [v.valid[0]];
      assert v.valid[..0] == [];
      if row.code.value in more {
        assert RowIssues(row, seenThere, existing + more) == [DUPLICATE_IN_DATABASE];
      } else {
        assert RowIssues(row, seenThere, existing + more) == [];
      }
    }
  }

  lemma HarmlessPrefix(rows: seq<PreparedRow>, row: PreparedRow, seen: set<Code>, existing: set<Code>, more: set<Code>)
    requires Harmless(rows + [row], seen, existing, more)
    ensures Harmless(rows, seen, existing, more)
  {
    forall i | 0 <= i < |rows| ensures (rows + [row])[i] == rows[i] && (rows + [row])[..i] == rows[..i] {}
  }

  lemma NothingCorrected(id: ImportId, seen: set<Code>, existing: set<Code>, more: set<Code>)
    ensures Corrected(id, Judge(id, [], seen, existing), Judge(id, [], seen, existing + more), more)
  {
  }

  lemma {:induction false} JudgeCorrected(
    id: ImportId, rows: seq<PreparedRow>, seen: set<Code>, existing: set<Code>, more: set<Code>)
    requires Harmless(rows, seen, existing, more)
    ensures Corrected(id, Judge(id, rows, seen, existing), Judge(id, rows, seen, existing + more), more)
  {
    hide *;
    NothingCorrected(id, seen, existing, more);
    if rows != [] {
      var front, row := rows[..|rows| - 1], rows[|rows| - 1];
      assert rows == front + [row];
      HarmlessPrefix(front, row, seen, existing, more);
      JudgeCorrected(id, front, seen, existing, more);
      JudgeCorrectedStep(id, front, row, seen, existing, more);
    }
  }

  lemma JudgeCorrectedStep(
    id: ImportId, front: seq<PreparedRow>, row: PreparedRow, seen: set<Code>, existing: set<Code>, more: set<Code>)
    requires Harmless(front + [row], seen, existing, more)
    requires Corrected(id, Judge(id, front, seen, existing), Judge(id, front, seen, existing + more), more)
    ensures Corrected(id, Judge(id, front + [row], seen, existing), Judge(id, front + [row], seen, existing + more),
        more)
  {
    hide *;
    NextVerdictCorrected(id, front, row, seen, existing, more);
    JudgeSnoc(id, front, row, seen, existing);
    JudgeSnoc(id, front, row, seen, existing + more);
    CorrectedThen(id, Judge(id, front, seen, existing), Judge(id, front, seen, existing + more),
      NextVerdict(id, front, row, seen, existing), NextVerdict(id, front, row, seen, existing + more), more);
  }

  /** A chunk result stands for judging its rows with `found` as the codes found in the database. */
  predicate Stands(id: ImportId, rows: seq<PreparedRow>, seen: set<Code>, found: set<Code>, r: ChunkResult) {
    SameResult(r, ResultOf(|rows|, Judge(id, rows, seen, found)))
  }

  /** Correcting `v` by the codes found now, as a result. */
  lemma CorrectResult(id: ImportId, n: nat, v: Verdicts, w: Verdicts, r: ChunkResult, stored: set<Code>)
    requires SameResult(r, ResultOf(n, v))
    requires Corrected(id, v, w, ValidCodes(v.valid) * stored)
    ensures SameResult(Reclassified(id, r, stored), ResultOf(n, w))
  {
    var taken := ValidCodes(v.valid) * stored;
    assert r.validRows == v.valid;
    hide *;
    RetainSize(v.valid, taken);
    ReclassifiedMeans(id, r, stored);
    CorrectedMeans(id, v, w, taken);
    if taken == {} {
      NothingTaken(id, v.valid);
      SameUnchanged(n, v, w, r);
    } else {
      SameCorrected(n, v, w, r, Retain(v.valid, taken), TakenErrors(id, v.valid, taken));
    }
  }

  lemma CorrectedMeans(id: ImportId, v: Verdicts, w: Verdicts, taken: set<Code>)
    requires Corrected(id, v, w, taken)
    ensures w.valid == Retain(v.valid, taken) && |w.valid| + w.failed == |v.valid| + v.failed
    ensures multiset(w.errors) == multiset(v.errors) + multiset(TakenErrors(id, v.valid, taken))
  {
  }

  lemma SameUnchanged(n: nat, v: Verdicts, w: Verdicts, r: ChunkResult)
    requires SameResult(r, ResultOf(n, v))
    requires w.valid == v.valid && w.failed == v.failed && multiset(w.errors) == multiset(v.errors) + multiset([])
    ensures SameResult(r, ResultOf(n, w))
  {
  }

  lemma SameCorrected(n: nat, v: Verdicts, w: Verdicts, r: ChunkResult, retained: seq<ValidRow>, taken: seq<ErrorRow>)
    requires SameResult(r, ResultOf(n, v))
    requires w.valid == retained && |retained| <= |v.valid| && |w.valid| + w.failed == |v.valid| + v.failed
    requires multiset(w.errors) == multiset(v.errors) + multiset(taken)
    ensures SameResult(ChunkResult(r.totalRows, r.processedRows, |retained|, r.failedCount + (|v.valid| - |retained|),
                                   ShipmentsOf(retained), r.errors + taken, retained), ResultOf(n, w))
  {
    assert multiset(r.errors + taken) == multiset(r.errors) + multiset(taken);
  }

  /** Each round keeps the valid rows whose codes are free, so a round that finds something keeps fewer. */
  lemma ReclassifiedRows(id: ImportId, r: ChunkResult, stored: set<Code>)
    requires r.successCount == |r.validRows|
    ensures var r' := Reclassified(id, r, stored);
            && ValidCodes(r'.validRows) == ValidCodes(r.validRows) - stored
            && r'.successCount == |r'.validRows| <= r.successCount
            && (r'.successCount == r.successCount <==> ValidCodes(r.validRows) !! stored)
  {
    var taken := ValidCodes(r.validRows) * stored;
    assert ValidCodes(r.validRows) - taken == ValidCodes(r.validRows) - stored;
    RetainSize(r.validRows, taken);
  }

  lemma {:induction false} NothingTaken(id: ImportId, valid: seq<ValidRow>)
    ensures TakenErrors(id, valid, {}) == []
  {
    if valid != [] {
      NothingTaken(id, valid[..|valid| - 1]);
    }
  }

  lemma StandsMeaning(id: ImportId, rows: seq<PreparedRow>, seen: set<Code>, found: set<Code>, r: ChunkResult)
    ensures Stands(id, rows, seen, found, r) <==> SameResult(r, ResultOf(|rows|, Judge(id, rows, seen, found)))
  {
  }

  /**
   * Correcting a result after a lookup stores the same rows as if the codes found then had been
   * found by the first lookup. The count of successes drops exactly when the lookup found something.
   */
  lemma ReclassificationIsLaterLookup(
    id: ImportId, rows: seq<PreparedRow>, seen: set<Code>, found: set<Code>, r: ChunkResult, stored: set<Code>)
    requires Stands(id, rows, seen, found, r)
    ensures var r' := Reclassified(id, r, stored);
            && Stands(id, rows, seen, found + ValidCodes(r.validRows) * stored, r')
            && (r'.successCount == r.successCount <==> ValidCodes(r.validRows) !! stored)
            && r'.successCount <= r.successCount
            && ValidCodes(r'.validRows) == ValidCodes(r.validRows) - stored
  {
    var taken := ValidCodes(r.validRows) * stored;
    var v, w := Judge(id, rows, seen, found), Judge(id, rows, seen, found + taken);
    assert r.validRows == v.valid && r.successCount == |v.valid|;
    ReclassifiedRows(id, r, stored);
    hide *;
    ValidCodesAreHarmless(id, rows, seen, found, taken);
    JudgeCorrected(id, rows, seen, found, taken);
    StandsMeaning(id, rows, seen, found, r);
    CorrectResult(id, |rows|, v, w, r, stored);
    StandsMeaning(id, rows, seen, found + taken, Reclassified(id, r, stored));
  }
}
