/**
 * Reading an uploaded workbook: the headers of every sheet, a preview of
 * the first sheet's data rows, and the cleaning of an account-Id column.
 *
 * The workbook library and pandas are I/O; a sheet is given as its rows of
 * cells (`None` for an empty cell) together with the library's `max_row`,
 * and an Id column as the list of its non-null cells as text.
 */
module ExcelImport {
  import opened Ascii
  import opened Options

  // ---------------------------------------------------------------------------
  // Account-Id cleaning

  /** The placeholder texts that spreadsheet tools write for a missing value. */
  predicate IsNullText(s: string) {
    var l := Lower(s);
    l == "nan" || l == "none" || l == "null"
  }

  /** The text a cell contributes: its stripped text, unless that is empty or
      a null placeholder. */
  function CleanCell(aid: string): Option<string> {
    var s := Strip(aid);
    if s != [] && !IsNullText(s) then Some(s) else None
  }

  /** The texts the cells contribute, in input order. */
  function Survivors(xs: seq<string>, clean: string -> Option<string>): seq<string> {
    if xs == [] then []
    else
      var init := Survivors(xs[..|xs| - 1], clean);
      var c := clean(xs[|xs| - 1]);
      if c.Some? then init + [c.value] else init
  }

  /** The cleaned Id column. */
  function CleanIds(ids: seq<string>): seq<string> {
    Survivors(ids, CleanCell)
  }

  /** The cleaning loop of extract_account_ids_from_excel. */
  method CleanAccountIds(accountIds: seq<string>) returns (cleaned: seq<string>)
    ensures cleaned == CleanIds(accountIds)
  {
    cleaned := [];
    for i := 0 to |accountIds|
      invariant cleaned == Survivors(accountIds[..i], CleanCell)
    {
      assert accountIds[..i + 1][..i] == accountIds[..i];
      var aidStr := Strip(accountIds[i]);
      if aidStr != [] && !IsNullText(aidStr) {
        cleaned := cleaned + [aidStr];
      }
    }
    assert accountIds[..|accountIds|] == accountIds;
  }

  lemma {:induction false} SurvivorsSpec(xs: seq<string>, clean: string -> Option<string>)
    ensures forall c :: c in Survivors(xs, clean) ==> exists i :: 0 <= i < |xs| && clean(xs[i]) == Some(c)
  {
    if xs != [] {
      var init := xs[..|xs| - 1];
      SurvivorsSpec(init, clean);
      forall c | c in Survivors(init, clean) ensures exists i :: 0 <= i < |xs| && clean(xs[i]) == Some(c) {
        var i :| 0 <= i < |init| && clean(init[i]) == Some(c);
        assert xs[i] == init[i];
      }
    }
  }

  /** Every cleaned Id is stripped, non-empty and not a null placeholder, and
      is the stripped form of some input cell. */
  lemma CleanIdsSpec(ids: seq<string>)
    ensures forall c :: c in CleanIds(ids) ==> c != [] && Stripped(c) && !IsNullText(c)
    ensures forall c :: c in CleanIds(ids) ==> exists i :: 0 <= i < |ids| && Strip(ids[i]) == c
  {
    SurvivorsSpec(ids, CleanCell);
  }

  lemma SurvivorsSnoc(xs: seq<string>, x: string, clean: string -> Option<string>)
    ensures Survivors(xs + [x], clean) == Survivors(xs, clean) + if clean(x).Some? then [clean(x).value] else []
  {
    assert (xs + [x])[..|xs|] == xs;
  }

  lemma {:induction false} SurvivorsAppend(a: seq<string>, b: seq<string>, clean: string -> Option<string>)
    ensures Survivors(a + b, clean) == Survivors(a, clean) + Survivors(b, clean)
    decreases |b|
  {
    if b == [] {
      assert a + b == a;
    } else {
      var init, last := b[..|b| - 1], b[|b| - 1];
      SurvivorsAppend(a, init, clean);
      assert a + b == (a + init) + [last];
      assert b == init + [last];
      SurvivorsSnoc(a + init, last, clean);
      SurvivorsSnoc(init, last, clean);
    }
  }

  /** Cleaning works cell by cell: it keeps the input order of the survivors. */
  lemma CleanIdsAppend(a: seq<string>, b: seq<string>)
    ensures CleanIds(a + b) == CleanIds(a) + CleanIds(b)
  {
    SurvivorsAppend(a, b, CleanCell);
  }

  /** Re-cleaning what a cleaning function keeps keeps it unchanged, so a
      second pass changes nothing. */
  lemma {:induction false} SurvivorsIdempotent(xs: seq<string>, clean: string -> Option<string>)
    requires forall x :: clean(x).Some? ==> clean(clean(x).value) == clean(x)
    ensures Survivors(Survivors(xs, clean), clean) == Survivors(xs, clean)
  {
    if xs != [] {
      var init, last := xs[..|xs| - 1], xs[|xs| - 1];
      SurvivorsIdempotent(init, clean);
      var c := clean(last);
      if c.Some? {
        SurvivorsSnoc(Survivors(init, clean), c.value, clean);
      }
    }
  }

  /** A cleaned Id is its own cleaning. */
  lemma CleanCellKeeps(x: string)
    ensures CleanCell(x).Some? ==> CleanCell(CleanCell(x).value) == CleanCell(x)
  {
    if CleanCell(x).Some? {
      StripKeeps(Strip(x));
    }
  }

  /** Cleaning an already cleaned column changes nothing. */
  lemma CleanIdsIdempotent(ids: seq<string>)
    ensures CleanIds(CleanIds(ids)) == CleanIds(ids)
  {
    forall x ensures CleanCell(x).Some? ==> CleanCell(CleanCell(x).value) == CleanCell(x) {
      CleanCellKeeps(x);
    }
    SurvivorsIdempotent(ids, CleanCell);
  }

  // ---------------------------------------------------------------------------
  // Headers and preview

  /** A worksheet as read: its name, its rows of cells and the library's max_row. */
  datatype Sheet = Sheet(name: string, rows: seq<seq<Option<string>>>, maxRow: nat)

  /** The result of parse_excel_file. */
  datatype Parsed = Parsed(sheetNames: seq<string>, headers: map<string, seq<string>>,
                           preview: seq<seq<string>>, totalRows: nat)

  /** The name given to a header cell that is empty: Column_1, Column_2, ... */
  function ColumnName(i: nat): (r: string)
    ensures StartsWith(r, "Column_")
  {
    "Column_" + NatToString(i + 1)
  }

  /** The headers of a sheet: its first row, with generated names for empty cells. */
  function Headers(s: Sheet): (h: seq<string>)
    ensures |h| == if s.rows == [] then 0 else |s.rows[0]|
  {
    if s.rows == [] then []
    else
      var first := s.rows[0];
      seq(|first|, i requires 0 <= i < |first| => if first[i].Some? then first[i].value else ColumnName(i))
  }

  function CellText(c: Option<string>): string {
    if c.Some? then c.value else ""
  }

  /** A data row shaped to the header width: empty cells as "", padded with ""
      or cut to exactly width cells. */
  function PreviewRow(row: seq<Option<string>>, width: nat): (r: seq<string>)
    ensures |r| == width
  {
    seq(width, j requires 0 <= j < width => if j < |row| then CellText(row[j]) else "")
  }

  /** The padding loop: a row is extended with "" until it is as wide as the
      headers, then cut to their width. */
  method ShapePreviewRow(row: seq<Option<string>>, width: nat) returns (r: seq<string>)
    ensures r == PreviewRow(row, width)
  {
    var rowData := seq(|row|, j requires 0 <= j < |row| => CellText(row[j]));
    while |rowData| < width
      invariant |row| <= |rowData| <= if width < |row| then |row| else width
      invariant forall j :: 0 <= j < |rowData| ==> rowData[j] == if j < |row| then CellText(row[j]) else ""
      decreases width - |rowData|
    {
      rowData := rowData + [""];
    }
    r := rowData[..width];
  }

  function Min(a: nat, b: nat): nat { if a < b then a else b }
  function Max(a: nat, b: nat): nat { if a < b then b else a }

  /** The data rows of the preview: the rows after the header row, at most ten. */
  function DataRows(s: Sheet): seq<seq<Option<string>>> {
    if |s.rows| <= 1 then [] else s.rows[1..Min(|s.rows|, 11)]
  }

  function SheetPreview(s: Sheet): (p: seq<seq<string>>)
    ensures |p| == |DataRows(s)|
  {
    var rows := DataRows(s);
    seq(|rows|, k requires 0 <= k < |rows| => PreviewRow(rows[k], |Headers(s)|))
  }

  /** The preview loop over the rows of the first sheet. */
  method PreviewOfSheet(s: Sheet) returns (preview: seq<seq<string>>)
    ensures preview == SheetPreview(s)
  {
    var sheetHeaders := Headers(s);
    preview := [];
    for rowIdx := 0 to |s.rows|
      invariant |preview| == if rowIdx <= 1 then 0 else rowIdx - 1
      invariant |preview| <= 10
      invariant forall k :: 0 <= k < |preview| ==> preview[k] == PreviewRow(s.rows[k + 1], |sheetHeaders|)
    {
      if rowIdx == 0 {
        continue;
      } else if rowIdx < 11 {
        var rowData := ShapePreviewRow(s.rows[rowIdx], |sheetHeaders|);
        preview := preview + [rowData];
      } else {
        break;
      }
    }
  }

  /** The sheet's row count without its header row: max_row - 1, or 0 when max_row is 0. */
  function SheetTotal(s: Sheet): nat {
    if s.maxRow == 0 then 0 else s.maxRow - 1
  }

  /** The headers of every sheet by name; a later sheet of the same name overwrites. */
  function AllHeaders(sheets: seq<Sheet>): map<string, seq<string>> {
    if sheets == [] then map[]
    else
      var last := sheets[|sheets| - 1];
      AllHeaders(sheets[..|sheets| - 1])[last.name := Headers(last)]
  }

  /** The previews of the sheets called name, one after the other. */
  function PreviewNamed(sheets: seq<Sheet>, name: string): seq<seq<string>> {
    if sheets == [] then []
    else
      var last := sheets[|sheets| - 1];
      PreviewNamed(sheets[..|sheets| - 1], name) + (if last.name == name then SheetPreview(last) else [])
  }

  /** The row count of the last sheet called name, 0 when there is none. */
  function TotalNamed(sheets: seq<Sheet>, name: string): nat {
    if sheets == [] then 0
    else
      var last := sheets[|sheets| - 1];
      if last.name == name then SheetTotal(last) else TotalNamed(sheets[..|sheets| - 1], name)
  }

  function Names(sheets: seq<Sheet>): (r: seq<string>)
    ensures |r| == |sheets| && forall k :: 0 <= k < |sheets| ==> r[k] == sheets[k].name
  {
    seq(|sheets|, k requires 0 <= k < |sheets| => sheets[k].name)
  }

  /** The result of parse_excel_file on a workbook that opens. */
  function Parse(sheets: seq<Sheet>): Parsed {
    var first := if sheets == [] then "" else sheets[0].name;
    var preview := PreviewNamed(sheets, first);
    Parsed(Names(sheets), AllHeaders(sheets), preview, Max(TotalNamed(sheets, first), |preview|))
  }

  /** parse_excel_file: the loop over the sheets. A sheet gives preview rows
      and its row count when its name equals the first sheet's; the sheet
      names of a workbook are distinct, so that is the first sheet alone
      (OnlyFirstNamed). */
  method ParseExcelFile(sheets: seq<Sheet>) returns (parsed: Parsed)
    ensures parsed == Parse(sheets)
  {
    var sheetNames := Names(sheets);
    var allHeaders: map<string, seq<string>> := map[];
    var previewData: seq<seq<string>> := [];
    var totalRows := 0;
    ghost var first := if sheets == [] then "" else sheets[0].name;
    for k := 0 to |sheets|
      invariant allHeaders == AllHeaders(sheets[..k])
      invariant previewData == PreviewNamed(sheets[..k], first)
      invariant totalRows == TotalNamed(sheets[..k], first)
    {
      assert sheets[..k + 1][..k] == sheets[..k];
      var sheet := sheets[k];
      var sheetHeaders := Headers(sheet);
      allHeaders := allHeaders[sheet.name := sheetHeaders];
      if sheet.name == sheetNames[0] {
        var rows := PreviewOfSheet(sheet);
        previewData := previewData + rows;
        totalRows := SheetTotal(sheet);
      }
    }
    assert sheets[..|sheets|] == sheets;
    parsed := Parsed(sheetNames, allHeaders, previewData, Max(totalRows, |previewData|));
  }

  // ---------------------------------------------------------------------------
  // Properties

  /** Header cells keep their text; an empty header cell i becomes Column_(i+1). */
  lemma HeadersSpec(s: Sheet, i: nat)
    requires s.rows != [] && i < |s.rows[0]|
    ensures s.rows[0][i].Some? ==> Headers(s)[i] == s.rows[0][i].value
    ensures s.rows[0][i].None? ==> Headers(s)[i] == "Column_" + NatToString(i + 1)
  {
  }

  /** The preview of a sheet skips the header row, keeps at most ten data rows
      in order, and shapes each to exactly the header width. */
  lemma SheetPreviewSpec(s: Sheet)
    ensures |SheetPreview(s)| <= 10
    ensures |SheetPreview(s)| == if |s.rows| <= 1 then 0 else Min(|s.rows|, 11) - 1
    ensures forall k :: 0 <= k < |SheetPreview(s)| ==>
              |SheetPreview(s)[k]| == |Headers(s)| && SheetPreview(s)[k] == PreviewRow(s.rows[k + 1], |Headers(s)|)
  {
  }

  predicate DistinctNames(sheets: seq<Sheet>) {
    forall i, j :: 0 <= i < j < |sheets| ==> sheets[i].name != sheets[j].name
  }

  lemma {:induction false} OnlyFirstNamed(sheets: seq<Sheet>)
    requires sheets != [] && DistinctNames(sheets)
    ensures PreviewNamed(sheets, sheets[0].name) == SheetPreview(sheets[0])
    ensures TotalNamed(sheets, sheets[0].name) == SheetTotal(sheets[0])
  {
    if |sheets| > 1 {
      var init := sheets[..|sheets| - 1];
      OnlyFirstNamed(init);
    } else {
      assert sheets[..0] == [];
    }
  }

  lemma {:induction false} AllHeadersSpec(sheets: seq<Sheet>)
    requires DistinctNames(sheets)
    ensures forall k :: 0 <= k < |sheets| ==> sheets[k].name in AllHeaders(sheets) && AllHeaders(sheets)[sheets[k].name] == Headers(sheets[k])
  {
    if sheets != [] {
      var init := sheets[..|sheets| - 1];
      AllHeadersSpec(init);
      forall k | 0 <= k < |sheets|
        ensures sheets[k].name in AllHeaders(sheets) && AllHeaders(sheets)[sheets[k].name] == Headers(sheets[k])
      {
        if k < |init| {
          assert init[k] == sheets[k];
        }
      }
    }
  }

  /** In a workbook, whose sheet names are distinct: every sheet's headers are
      reported under its name; the preview is that of the first sheet; and the
      row count is the first sheet's, but never less than the preview's length. */
  lemma ParseSpec(sheets: seq<Sheet>)
    requires DistinctNames(sheets)
    ensures Parse(sheets).totalRows >= |Parse(sheets).preview|
    ensures forall k :: 0 <= k < |sheets| ==>
              sheets[k].name in Parse(sheets).headers && Parse(sheets).headers[sheets[k].name] == Headers(sheets[k])
    ensures sheets == [] ==> Parse(sheets).preview == [] && Parse(sheets).totalRows == 0
    ensures sheets != [] ==>
              && Parse(sheets).preview == SheetPreview(sheets[0])
              && Parse(sheets).totalRows == Max(SheetTotal(sheets[0]), |SheetPreview(sheets[0])|)
  {
    AllHeadersSpec(sheets);
    if sheets != [] {
      OnlyFirstNamed(sheets);
    }
  }
}
