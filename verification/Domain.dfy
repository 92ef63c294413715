/** Values shared by the import pipeline: identifiers, shipments, validation issues and their stored forms. */
module Domain {
  import opened Jsonb

  datatype Option<+T> = None | Some(value: T) {
    function GetOr(default: T): T {
      if Some? then value else default
    }
  }

  type ImportId = nat
  type Token = nat
  type Code = string

  /** A row-level problem reported for one workbook field. */
  datatype Issue = Issue(field: string, error: string)

  const DUPLICATE_IN_FILE := Issue("shipment_code", "Shipment code must be unique within the import file.")
  const DUPLICATE_IN_DATABASE := Issue("shipment_code", "Shipment code already exists in the database.")

  /** The typed values of a row in which every required field could be parsed. */
  datatype Draft = Draft(
    code: Code,
    customerName: string,
    originCity: string,
    destinationCity: string,
    weightKg: real,
    price: real,
    status: string,
    deliveryDate: Option<nat>)

  /** A row of the shipments table. */
  datatype Shipment = Shipment(importId: ImportId, draft: Draft)

  /** A row of the import_errors table. */
  datatype ErrorRow = ErrorRow(importId: ImportId, rowNumber: nat, issue: Issue, rawData: Value)

  /** One non-blank worksheet row, as the parser yields it: field names with their normalised values. */
  datatype WorkbookRow = WorkbookRow(number: nat, items: seq<Entry>)

  datatype PreparedRecord = PreparedRecord(
    row: WorkbookRow,
    issues: seq<Issue>,
    draft: Option<Draft>,
    code: Option<Code>)
  {
    /** A row that could not be parsed has an issue; a parsed row is known by its own code. */
    predicate Consistent() {
      && (draft.None? ==> issues != [])
      && (draft.Some? ==> code == Some(draft.value.code))
    }
  }

  /** A row after field parsing and the shipment rules, before the duplicate checks. */
  type PreparedRow = p: PreparedRecord | p.Consistent()
    witness PreparedRecord(WorkbookRow(2, []), [Issue("status", "Field required")], None, None)

  /** A valid row keeps its number and raw data, in case it turns out to be a duplicate later. */
  datatype ValidRow = ValidRow(shipment: Shipment, rowNumber: nat, rawData: Value)

  /** What validating one chunk yields. */
  datatype ChunkResult = ChunkResult(
    totalRows: nat,
    processedRows: nat,
    successCount: nat,
    failedCount: nat,
    shipments: seq<Shipment>,
    errors: seq<ErrorRow>,
    validRows: seq<ValidRow>)

  function CodeSet(shipments: seq<Shipment>): set<Code> {
    set s | s in shipments :: s.draft.code
  }

  predicate DistinctCodes(shipments: seq<Shipment>) {
    forall i, j :: 0 <= i < j < |shipments| ==> shipments[i].draft.code != shipments[j].draft.code
  }

  function RowNumbers(errors: multiset<ErrorRow>): set<nat> {
    set e | e in errors :: e.rowNumber
  }

  function Flatten<T>(parts: seq<seq<T>>): seq<T> {
    if parts == [] then [] else Flatten(parts[..|parts| - 1]) + parts[|parts| - 1]
  }
}
