/** The validation service: chunk by chunk with a tracker of seen codes, and the correction after a race. */
module RowValidation {
  import opened Domain
  import opened Verdicts
  import opened RowParsing
  import opened Workbook
  import opened Repositories

  class DuplicateTracker {
    var seenShipmentCodes: set<Code>

    constructor ()
      ensures seenShipmentCodes == {}
    {
      seenShipmentCodes := {};
    }

    function UnseenCodes(codes: set<Code>): set<Code>
      reads this
    {
      codes - seenShipmentCodes
    }

    method RememberCodes(codes: set<Code>)
      modifies this
      ensures seenShipmentCodes == old(seenShipmentCodes) + codes
    {
      seenShipmentCodes := seenShipmentCodes + codes;
    }
  }

  /** Collects chunk results; the chunks added so far are its abstract value. */
  class ValidationAccumulator {
    var totalRows: nat
    var successCount: nat
    var failedCount: nat
    var shipments: seq<Shipment>
    var importErrors: seq<ErrorRow>

    constructor ()
      ensures Holds(0, NO_ROWS)
    {
      totalRows, successCount, failedCount, shipments, importErrors := 0, 0, 0, [], [];
    }

    /** The collected rows are those of the verdicts `v` on `total` rows. */
    ghost predicate Holds(total: nat, v: Verdicts)
      reads this
    {
      && totalRows == total && successCount == |v.valid| && failedCount == v.failed
      && shipments == ShipmentsOf(v.valid) && importErrors == v.errors
    }

    method AddChunk(r: ChunkResult, ghost total: nat, ghost v: Verdicts, ghost rows: nat, ghost next: Verdicts)
      requires Holds(total, v) && r == ResultOf(rows, next)
      modifies this
      ensures Holds(total + rows, v.Then(next))
    {
      ShipmentsThen(v, next);
      totalRows := totalRows + r.totalRows;
      successCount := successCount + r.successCount;
      failedCount := failedCount + r.failedCount;
      shipments := shipments + r.shipments;
      importErrors := importErrors + r.errors;
    }
  }

  lemma ShipmentsThen(a: Verdicts, b: Verdicts)
    ensures ShipmentsOf(a.Then(b).valid) == ShipmentsOf(a.valid) + ShipmentsOf(b.valid)
  {
    var all := ShipmentsOf(a.valid + b.valid);
    assert forall i :: 0 <= i < |all| ==> all[i] == (ShipmentsOf(a.valid) + ShipmentsOf(b.valid))[i];
  }

  /** The codes a lookup of this chunk finds. */
  function Found(rows: seq<PreparedRow>, seen: set<Code>, stored: set<Code>): set<Code> {
    (CodesOf(rows) - seen) * stored
  }

  class RowValidationService {
    const adapters: Adapters
    const shipmentRepository: ShipmentRepository

    constructor (adapters: Adapters, shipmentRepository: ShipmentRepository)
      ensures this.adapters == adapters && this.shipmentRepository == shipmentRepository
    {
      this.adapters, this.shipmentRepository := adapters, shipmentRepository;
    }

    method PrepareRows(chunk: seq<WorkbookRow>) returns (rows: seq<PreparedRow>, codes: set<Code>)
      ensures rows == PrepareAll(adapters, chunk) && codes == CodesOf(rows)
    {
      rows, codes := [], {};
      var i := 0;
      while i < |chunk|
        invariant i <= |chunk|
        invariant rows == PrepareAll(adapters, chunk[..i]) && codes == CodesOf(rows)
      {
        var row := ParseRow(adapters, chunk[i]);
        CodesSnoc(rows, row);
        PrepareSnoc(adapters, chunk, i);
        rows := rows + [row];
        codes := codes + if row.code.Some? then {row.code.value} else {};
        i := i + 1;
      }
      assert chunk[..i] == chunk;
    }

    /** One chunk: its rows are judged with the codes seen before and the codes the lookup found. */
    method ValidateChunk(chunk: seq<WorkbookRow>, tracker: DuplicateTracker, id: ImportId) returns (r: ChunkResult)
      modifies tracker
      ensures var rows, seen := PrepareAll(adapters, chunk), old(tracker.seenShipmentCodes);
              && r == ResultOf(|chunk|,
                        Judge(id, rows, seen, Found(rows, seen, CodeSet(shipmentRepository.session.shipments))))
              && tracker.seenShipmentCodes == seen + CodesOf(rows)
    {
      hide Judge, ShipmentsOf, PrepareRow, RowIssues, DuplicateIssue, ErrorRows, CodesOf;
      var rows, chunkCodes := PrepareRows(chunk);
      var existing := shipmentRepository.FindExistingShipmentCodes(tracker.UnseenCodes(chunkCodes));
      ghost var seen := tracker.seenShipmentCodes;

      var importErrors: seq<ErrorRow> := [];
      var validRows: seq<ValidRow> := [];
      var shipments: seq<Shipment> := [];
      var chunkSeen: set<Code> := {};
      var failedCount := 0;
      var i := 0;
      NothingJudged(id, seen, existing);
      assert rows[..0] == [];
      while i < |rows|
        invariant i <= |rows|
        invariant tracker.seenShipmentCodes == seen && chunkSeen == CodesOf(rows[..i])
        invariant Verdicts(validRows, importErrors, failedCount) == Judge(id, rows[..i], seen, existing)
        invariant shipments == ShipmentsOf(validRows)
      {
        var row := rows[i];
        var issues := row.issues;
        if row.code.Some? {
          if row.code.value in tracker.seenShipmentCodes || row.code.value in chunkSeen {
            issues := issues + [DUPLICATE_IN_FILE];
          } else if row.code.value in existing {
            issues := issues + [DUPLICATE_IN_DATABASE];
          }
          chunkSeen := chunkSeen + {row.code.value};
        }
        assert rows[..i + 1] == rows[..i] + [row];
        CodesSnoc(rows[..i], row);
        IssuesOfRow(rows[..i], row, seen, existing, issues);
        if issues != [] {
          failedCount := failedCount + 1;
          importErrors := importErrors + ErrorRows(id, row.row.number, RawData(row.row), issues);
          FailingRowStep(id, rows[..i], row, seen, existing);
        } else {
          var shipment := Shipment(id, row.draft.value);
          ValidRowStep(id, rows[..i], row, seen, existing);
          ShipmentsSnoc(validRows, ValidRow(shipment, row.row.number, RawData(row.row)));
          shipments := shipments + [shipment];
          validRows := validRows + [ValidRow(shipment, row.row.number, RawData(row.row))];
        }
        i := i + 1;
      }
      assert rows[..i] == rows;
      tracker.RememberCodes(chunkSeen);
      r := ChunkResult(|chunk|, |shipments| + failedCount, |shipments|, failedCount, shipments, importErrors,
          validRows);
    }

    /** The valid rows whose codes are free, and the errors for the others. */
    method Separate(id: ImportId, valid: seq<ValidRow>, existing: set<Code>)
      returns (retained: seq<ValidRow>, importErrors: seq<ErrorRow>)
      ensures retained == Retain(valid, existing) && importErrors == TakenErrors(id, valid, existing)
    {
      NothingRetained(id, valid, existing);
      hide Retain, TakenErrors, ErrorRows;
      retained, importErrors := [], [];
      var i := 0;
      while i < |valid|
        invariant i <= |valid|
        invariant retained == Retain(valid[..i], existing)
        invariant importErrors == TakenErrors(id, valid[..i], existing)
      {
        RetainStep(id, valid, i, existing);
        if valid[i].shipment.draft.code !in existing {
          retained := retained + [valid[i]];
        } else {
          importErrors := importErrors + ErrorRows(id, valid[i].rowNumber, valid[i].rawData, [DUPLICATE_IN_DATABASE]);
        }
        i := i + 1;
      }
      assert valid[..i] == valid;
    }

    /** After an integrity error: valid rows whose codes are stored by now become errors. */
    method ReclassifyDatabaseDuplicates(id: ImportId, chunkResult: ChunkResult) returns (r: ChunkResult)
      ensures r == Reclassified(id, chunkResult, CodeSet(shipmentRepository.session.shipments))
    {
      ReclassifiedMeans(id, chunkResult, CodeSet(shipmentRepository.session.shipments));
      hide Retain, TakenErrors, Reclassified, ErrorRows, ShipmentsOf, CodeSet;
      var valid := chunkResult.validRows;
      var existing := shipmentRepository.FindExistingShipmentCodes(set v | v in valid :: v.shipment.draft.code);
      assert existing == ValidCodes(valid) * CodeSet(shipmentRepository.session.shipments);
      if existing == {} {
        return chunkResult;
      }
      var retained, importErrors := Separate(id, valid, existing);
      assert |retained| <= |valid|;
      r := ChunkResult(chunkResult.totalRows, chunkResult.processedRows, |retained|,
        chunkResult.failedCount + (|valid| - |retained|), ShipmentsOf(retained), chunkResult.errors + importErrors,
            retained);
    }

    /**
     * Validating a whole workbook chunk by chunk, without storing anything in between, collects the
     * row-by-row verdicts of the file, for every chunk size.
     */
    method Validate(parser: XlsxParser, id: ImportId) returns (all: ValidationAccumulator)
      ensures fresh(all)
      ensures var rows := PrepareAll(adapters, DataRows(parser.sheet, |parser.sheet|));
              all.Holds(|rows|, Rowwise(id, rows, CodeSet(shipmentRepository.session.shipments), |rows|))
    {
      hide Judge, PrepareAll, CodesOf, Rowwise, CodeSet, DataRows, Found, ResultOf;
      EmptyWorkbook(adapters, id, CodeSet(shipmentRepository.session.shipments));
      var tracker := new DuplicateTracker();
      all := new ValidationAccumulator();
      var chunks := parser.IterChunks();
      ghost var stored := CodeSet(shipmentRepository.session.shipments);
      var k := 0;
      assert Flatten(chunks[..0]) == [];
      while k < |chunks|
        invariant k <= |chunks|
        invariant fresh(tracker) && fresh(all)
        invariant var rows := PrepareAll(adapters, Flatten(chunks[..k]));
                  && tracker.seenShipmentCodes == CodesOf(rows)
                  && all.Holds(|rows|, Judge(id, rows, {}, stored))
      {
        ghost var before := PrepareAll(adapters, Flatten(chunks[..k]));
        ghost var rows := PrepareAll(adapters, chunks[k]);
        var r := ValidateChunk(chunks[k], tracker, id);
        StreamStep(id, before, rows, stored);
        all.AddChunk(r, |before|, Judge(id, before, {}, stored), |rows|, Judge(id, rows, CodesOf(before), stored));
        assert chunks[..k + 1][..k] == chunks[..k];
        PrepareConcat(adapters, Flatten(chunks[..k]), chunks[k]);
        k := k + 1;
      }
      assert chunks[..k] == chunks;
      WholeFileVerdicts(id, PrepareAll(adapters, Flatten(chunks)), stored);
    }
  }

  lemma NothingRetained(id: ImportId, valid: seq<ValidRow>, taken: set<Code>)
    ensures Retain(valid[..0], taken) == [] && TakenErrors(id, valid[..0], taken) == []
  {
  }

  lemma RetainStep(id: ImportId, valid: seq<ValidRow>, i: nat, taken: set<Code>)
    requires i < |valid|
    ensures Retain(valid[..i + 1], taken) ==
            Retain(valid[..i], taken) + if valid[i].shipment.draft.code in taken then [] else [valid[i]]
    ensures TakenErrors(id, valid[..i + 1], taken) ==
            TakenErrors(id, valid[..i], taken) +
            if valid[i].shipment.draft.code in taken
            then ErrorRows(id, valid[i].rowNumber, valid[i].rawData, [DUPLICATE_IN_DATABASE]) else []
  {
    assert valid[..i + 1][..i] == valid[..i];
  }

  lemma IssuesOfRow(
    rows: seq<PreparedRow>, row: PreparedRow, seen: set<Code>, existing: set<Code>, issues: seq<Issue>)
    requires issues == row.issues +
      if row.code.None? then []
      else if row.code.value in seen || row.code.value in CodesOf(rows) then [DUPLICATE_IN_FILE]
      else if row.code.value in existing then [DUPLICATE_IN_DATABASE]
      else []
    ensures issues == RowIssues(row, seen + CodesOf(rows), existing)
    ensures issues == [] ==> row.draft.Some?
  {
  }

  lemma FailingRowStep(id: ImportId, rows: seq<PreparedRow>, row: PreparedRow, seen: set<Code>, existing: set<Code>)
    requires RowIssues(row, seen + CodesOf(rows), existing) != []
    ensures var v := Judge(id, rows, seen, existing);
            Judge(id, rows + [row], seen, existing) ==
            Verdicts(v.valid,
              v.errors + ErrorRows(id, row.row.number, RawData(row.row), RowIssues(row, seen + CodesOf(rows),
                  existing)),
              v.failed + 1)
  {
    JudgeSnoc(id, rows, row, seen, existing);
    var v := Judge(id, rows, seen, existing);
    assert v.valid + [] == v.valid;
  }

  lemma ValidRowStep(id: ImportId, rows: seq<PreparedRow>, row: PreparedRow, seen: set<Code>, existing: set<Code>)
    requires RowIssues(row, seen + CodesOf(rows), existing) == [] && row.draft.Some?
    ensures var v := Judge(id, rows, seen, existing);
            Judge(id, rows + [row], seen, existing) ==
            Verdicts(v.valid + [ValidRow(Shipment(id, row.draft.value), row.row.number, RawData(row.row))], v.errors,
                v.failed)
  {
    JudgeSnoc(id, rows, row, seen, existing);
    var v := Judge(id, rows, seen, existing);
    assert v.errors + [] == v.errors;
  }

  lemma NothingJudged(id: ImportId, seen: set<Code>, existing: set<Code>)
    ensures CodesOf([]) == {} && Judge(id, [], seen, existing) == NO_ROWS && ShipmentsOf([]) == []
  {
  }

  lemma EmptyWorkbook(adapters: Adapters, id: ImportId, stored: set<Code>)
    ensures PrepareAll(adapters, []) == [] && CodesOf([]) == {} && Judge(id, [], {}, stored) == NO_ROWS
  {
  }

  lemma LookupIsEnough(rows: seq<PreparedRow>, seen: set<Code>, stored: set<Code>)
    ensures (CodesOf(rows) - seen) * Found(rows, seen, stored) == (CodesOf(rows) - seen) * stored
  {
    hide CodesOf;
  }

  /** Judging the next chunk after the rows before it, with the lookup's own answer. */
  lemma StreamStep(id: ImportId, before: seq<PreparedRow>, rows: seq<PreparedRow>, stored: set<Code>)
    ensures Judge(id, rows, CodesOf(before), Found(rows, CodesOf(before), stored)) == Judge(id, rows, CodesOf(before),
        stored)
    ensures Judge(id, before + rows, {}, stored) ==
            Judge(id, before, {}, stored).Then(Judge(id, rows, CodesOf(before), stored))
    ensures CodesOf(before + rows) == CodesOf(before) + CodesOf(rows)
  {
    hide *;
    LookupIsEnough(rows, CodesOf(before), stored);
    JudgeLookup(id, rows, CodesOf(before), Found(rows, CodesOf(before), stored), stored);
    JudgeConcat(id, before, rows, {}, stored);
    assert {} + CodesOf(before) == CodesOf(before);
    CodesOfConcat(before, rows);
  }

  lemma WholeFileVerdicts(id: ImportId, rows: seq<PreparedRow>, stored: set<Code>)
    ensures Judge(id, rows, {}, stored) == Rowwise(id, rows, stored, |rows|)
  {
    JudgeIsRowwise(id, rows, stored, |rows|);
    assert rows[..|rows|] == rows;
  }

  lemma ShipmentsSnoc(valid: seq<ValidRow>, last: ValidRow)
    ensures ShipmentsOf(valid + [last]) == ShipmentsOf(valid) + [last.shipment]
  {
    assert (valid + [last])[..|valid|] == valid;
  }

  lemma CodesSnoc(rows: seq<PreparedRow>, row: PreparedRow)
    ensures CodesOf(rows + [row]) == CodesOf(rows) + if row.code.Some? then {row.code.value} else {}
  {
    CodesOfConcat(rows, [row]);
  }

  lemma PrepareSnoc(adapters: Adapters, chunk: seq<WorkbookRow>, i: nat)
    requires i < |chunk|
    ensures PrepareAll(adapters, chunk[..i + 1]) == PrepareAll(adapters, chunk[..i]) + [PrepareRow(adapters, chunk[i])]
  {
    hide PrepareRow;
  }

  lemma PrepareConcat(adapters: Adapters, a: seq<WorkbookRow>, b: seq<WorkbookRow>)
    ensures PrepareAll(adapters, a + b) == PrepareAll(adapters, a) + PrepareAll(adapters, b)
  {
    hide PrepareRow;
  }
}
