/** The worksheet parser: blank rows are skipped, the others are numbered and cut into chunks. */
module Workbook {
  import opened Domain
  import opened Jsonb

  /** A worksheet below its header: per row, the normalised values of the known fields, Null where empty. */
  type Sheet = seq<seq<Entry>>

  predicate Blank(row: seq<Entry>) {
    forall entry | entry in row :: entry.value == Null
  }

  const FIRST_ROW := 2

  /** The non-blank rows among the first `n`, with their worksheet numbers. */
  function DataRows(sheet: Sheet, n: nat): seq<WorkbookRow>
    requires n <= |sheet|
  {
    if n == 0 then []
    else DataRows(sheet, n - 1) + if Blank(sheet[n - 1]) then [] else [WorkbookRow(FIRST_ROW + n - 1, sheet[n - 1])]
  }

  /** Non-empty chunks, all but the last of them full. */
  predicate WellCut(chunks: seq<seq<WorkbookRow>>, size: nat) {
    && (forall i :: 0 <= i < |chunks| ==> 1 <= |chunks[i]| <= size)
    && (forall i :: 0 <= i < |chunks| - 1 ==> |chunks[i]| == size)
  }

  class XlsxParser {
    const sheet: Sheet
    const chunkSize: int

    constructor (sheet: Sheet, chunkSize: int)
      ensures this.sheet == sheet && this.chunkSize == chunkSize
    {
      this.sheet, this.chunkSize := sheet, chunkSize;
    }

    /** Every data row is in exactly one chunk, in worksheet order. A size below one cuts as one does. */
    predicate Cuts(chunks: seq<seq<WorkbookRow>>) {
      Flatten(chunks) == DataRows(sheet, |sheet|) && WellCut(chunks, if chunkSize < 1 then 1 else chunkSize)
    }

    method IterChunks() returns (chunks: seq<seq<WorkbookRow>>)
      ensures Cuts(chunks)
    {
      hide DataRows, Flatten, Blank;
      ghost var size := if chunkSize < 1 then 1 else chunkSize;
      chunks := [];
      var rows: seq<WorkbookRow> := [];
      NoRows(sheet);
      var n := 0;
      while n < |sheet|
        invariant n <= |sheet|
        invariant Flatten(chunks) + rows == DataRows(sheet, n)
        invariant |rows| < size
        invariant forall i :: 0 <= i < |chunks| ==> |chunks[i]| == size
      {
        NextRow(sheet, n);
        if !Blank(sheet[n]) {
          ghost var before := rows;
          rows := rows + [WorkbookRow(FIRST_ROW + n, sheet[n])];
          assert Flatten(chunks) + rows == (Flatten(chunks) + before) + [WorkbookRow(FIRST_ROW + n, sheet[n])];
          if |rows| >= chunkSize {
            FlattenAppend(chunks, rows);
            chunks := chunks + [rows];
            rows := [];
          }
        }
        n := n + 1;
      }
      if rows != [] {
        FlattenAppend(chunks, rows);
        chunks := chunks + [rows];
      }
    }
  }

  lemma NoRows(sheet: Sheet)
    ensures DataRows(sheet, 0) == [] && Flatten<WorkbookRow>([]) == []
  {
  }

  lemma NextRow(sheet: Sheet, n: nat)
    requires n < |sheet|
    ensures DataRows(sheet, n + 1) ==
            DataRows(sheet, n) + if Blank(sheet[n]) then [] else [WorkbookRow(FIRST_ROW + n, sheet[n])]
  {
  }

  lemma FlattenAppend<T>(parts: seq<seq<T>>, last: seq<T>)
    ensures Flatten(parts + [last]) == Flatten(parts) + last
  {
    assert (parts + [last])[..|parts|] == parts;
  }

  lemma {:induction false} FlattenFront<T>(parts: seq<seq<T>>)
    requires parts != []
    ensures Flatten(parts) == parts[0] + Flatten(parts[1..])
  {
    var n := |parts| - 1;
    if n == 0 {
      assert Flatten(parts[..0]) == [] && Flatten(parts[1..]) == [];
    } else {
      var front, tail, last := parts[..n], parts[1..], parts[n];
      FlattenFront(front);
      assert Flatten(tail) == Flatten(front[1..]) + last by {
        assert tail[..n - 1] == front[1..] && tail[n - 1] == last;
      }
      assert Flatten(parts) == Flatten(front) + last;
      hide Flatten;
      assert (front[0] + Flatten(front[1..])) + last == front[0] + (Flatten(front[1..]) + last);
    }
  }

  /** There is only one way to cut rows into chunks, so every attempt sees the same chunks. */
  lemma {:induction false} OneWayToCut(a: seq<seq<WorkbookRow>>, b: seq<seq<WorkbookRow>>, size: nat)
    requires WellCut(a, size) && WellCut(b, size) && Flatten(a) == Flatten(b)
    ensures a == b
  {
    if a == [] || b == [] {
      if a != [] {
        FlattenFront(a);
      } else if b != [] {
        FlattenFront(b);
      }
    } else {
      FlattenFront(a);
      FlattenFront(b);
      NonEmptyFlatten(a[1..], size);
      NonEmptyFlatten(b[1..], size);
      assert |a[0]| == |b[0]|;
      assert a[0] == Flatten(a)[..|a[0]|] && b[0] == Flatten(b)[..|b[0]|];
      assert Flatten(a[1..]) == Flatten(a)[|a[0]|..] && Flatten(b[1..]) == Flatten(b)[|b[0]|..];
      OneWayToCut(a[1..], b[1..], size);
      assert a == [a[0]] + a[1..] && b == [b[0]] + b[1..];
    }
  }

  lemma NonEmptyFlatten(parts: seq<seq<WorkbookRow>>, size: nat)
    requires WellCut(parts, size)
    ensures parts != [] <==> Flatten(parts) != []
  {
    if parts != [] {
      FlattenFront(parts);
    }
  }

  /** Data rows are exactly the worksheet rows in which a value is not empty, numbered from 2 below the header. */
  lemma {:induction false} DataRowsAreTheNonBlankRows(sheet: Sheet, n: nat, row: WorkbookRow)
    requires n <= |sheet|
    ensures row in DataRows(sheet, n) <==>
              && 2 <= row.number < 2 + n && row.items == sheet[row.number - 2]
              && exists entry :: entry in row.items && entry.value != Null
  {
    if n != 0 {
      DataRowsAreTheNonBlankRows(sheet, n - 1, row);
    }
  }

  predicate Ordered(rows: seq<WorkbookRow>) {
    forall i, j :: 0 <= i < j < |rows| ==> rows[i].number < rows[j].number
  }

  /** Their numbers increase, so no two rows of a workbook share one. */
  lemma {:induction false} DataRowsAreOrdered(sheet: Sheet, n: nat)
    requires n <= |sheet|
    ensures Ordered(DataRows(sheet, n))
  {
    if n != 0 {
      DataRowsAreOrdered(sheet, n - 1);
      var before, rows := DataRows(sheet, n - 1), DataRows(sheet, n);
      forall i, j | 0 <= i < j < |rows| ensures rows[i].number < rows[j].number {
        DataRowsAreTheNonBlankRows(sheet, n - 1, before[i]);
        assert before[i] in before && rows[i] == before[i];
        if j < |before| {
          assert rows[j] == before[j];
        }
      }
    }
  }
}
