/**
 * What `create_excel_file` puts in the workbook: one sheet per table that
 * could be written, under the table's name cut to Excel's 31 characters.
 *
 * Building the pandas frame and writing it with openpyxl are foreign calls;
 * their outcome for each table is a parameter (`ok`).
 */
module Workbook {
  import opened Tables

  /** The longest sheet name Excel accepts. */
  const MaxSheetName: nat := 31

  /** `name[:31]`: the longest prefix of `name` that fits a sheet name. */
  function SheetName(name: string): (r: string)
    ensures |r| <= MaxSheetName && |r| <= |name| && r == name[..|r|]
    ensures |r| == MaxSheetName || r == name
  {
    if |name| <= MaxSheetName then name else name[..MaxSheetName]
  }

  /** A sheet as written: its name, the header row, and the rows below it. */
  datatype Sheet = Sheet(name: string, header: seq<Cell>, rows: seq<seq<Cell>>)

  /** `pd.DataFrame(table['data'][1:], columns=table['data'][0])` under the sheet name. */
  function SheetOf(t: Table): (s: Sheet)
    requires |t.data| > 0
    ensures s.name == SheetName(t.name)
    ensures [s.header] + s.rows == t.data
  {
    assert [t.data[0]] + t.data[1..] == t.data;
    Sheet(SheetName(t.name), t.data[0], t.data[1..])
  }

  /** A table is written when it has a header row (`table['data'][0]` raises
      otherwise) and the foreign calls succeed for it. */
  predicate Written(t: Table, ok: bool) {
    ok && |t.data| > 0
  }

  /** The sheets of the tables that were written, in table order: a table that
      fails is skipped and the loop goes on with the next one. */
  function WrittenSheets(ts: seq<Table>, ok: seq<bool>): seq<Sheet>
    requires |ts| == |ok|
  {
    if |ts| == 0 then []
    else
      var n := |ts| - 1;
      WrittenSheets(ts[..n], ok[..n]) + (if Written(ts[n], ok[n]) then [SheetOf(ts[n])] else [])
  }

  /** Every table that is written has its sheet, whatever happened to the tables before it. */
  lemma {:induction false} WrittenSheetsComplete(ts: seq<Table>, ok: seq<bool>, i: nat)
    requires |ts| == |ok| && i < |ts| && Written(ts[i], ok[i])
    ensures SheetOf(ts[i]) in WrittenSheets(ts, ok)
    decreases |ts|
  {
    var n := |ts| - 1;
    if i < n {
      WrittenSheetsComplete(ts[..n], ok[..n], i);
    }
  }

  /** Every sheet comes from a table that was written. */
  lemma {:induction false} WrittenSheetsSound(ts: seq<Table>, ok: seq<bool>, s: Sheet)
    requires |ts| == |ok| && s in WrittenSheets(ts, ok)
    ensures exists i :: 0 <= i < |ts| && Written(ts[i], ok[i]) && s == SheetOf(ts[i])
    decreases |ts|
  {
    var n := |ts| - 1;
    if s in WrittenSheets(ts[..n], ok[..n]) {
      WrittenSheetsSound(ts[..n], ok[..n], s);
      var i :| 0 <= i < n && Written(ts[..n][i], ok[..n][i]) && s == SheetOf(ts[..n][i]);
      assert ts[..n][i] == ts[i] && ok[..n][i] == ok[i];
    }
  }

  /** The number of tables that are written. */
  function CountWritten(ts: seq<Table>, ok: seq<bool>): nat
    requires |ts| == |ok|
  {
    if |ts| == 0 then 0
    else
      var n := |ts| - 1;
      CountWritten(ts[..n], ok[..n]) + (if Written(ts[n], ok[n]) then 1 else 0)
  }

  /** One sheet per written table, no more. */
  lemma {:induction false} WrittenSheetsCount(ts: seq<Table>, ok: seq<bool>)
    requires |ts| == |ok|
    ensures |WrittenSheets(ts, ok)| == CountWritten(ts, ok) <= |ts|
    decreases |ts|
  {
    if |ts| > 0 {
      WrittenSheetsCount(ts[..|ts| - 1], ok[..|ts| - 1]);
    }
  }

  /** The four report tables keep their names as sheet names, and no two collide. */
  lemma StructuredSheetNames(metadata: map<string, string>, summary: map<string, real>)
    ensures var ts := StructuredTables(metadata, summary);
            && (forall i :: 0 <= i < |ts| ==> |ts[i].data| > 0 && SheetName(ts[i].name) == ts[i].name)
            && (forall i, j :: 0 <= i < j < |ts| ==> SheetName(ts[i].name) != SheetName(ts[j].name))
  {
    var ts := StructuredTables(metadata, summary);
    assert |ts[0].name| <= MaxSheetName && |ts[1].name| <= MaxSheetName;
    assert |ts[2].name| <= MaxSheetName && |ts[3].name| <= MaxSheetName;
  }

  /** With the four report tables, a sheet is missing only when the writer failed for it. */
  lemma StructuredSheetsWritten(metadata: map<string, string>, summary: map<string, real>, ok: seq<bool>, i: nat)
    requires |ok| == 4 && i < 4 && ok[i]
    ensures var ts := StructuredTables(metadata, summary);
            Sheet(ts[i].name, ts[i].data[0], ts[i].data[1..]) in WrittenSheets(ts, ok)
  {
    var ts := StructuredTables(metadata, summary);
    StructuredSheetNames(metadata, summary);
    WrittenSheetsComplete(ts, ok, i);
  }
}
