/** The layout decisions of `generate_xlsx_file`: the header row, the
    column widths and which cells get the amber background. The workbook
    bytes themselves are not modelled. */
module Spreadsheet {
  import opened Wrappers
  import opened PricingReport

  /** `HEADER_VALUES_LIST`: nine labels; the tenth column, the note, has no
      header. */
  const HeaderValues: seq<string> := [
    "Sale Order", "Purchase Order", "Cost on Sale Order", "Unit Price on Purchase Order",
    "Quantity", "Price Difference", "Product Code", "Product Name", "Customer"]

  /** The column of the currency note. */
  const NoteColumn: nat := 9

  /** A cell value as written to the sheet. */
  datatype Cell = Text(text: string) | Number(value: real)

  /** Python truthiness of a cell value. */
  predicate Truthy(c: Cell) {
    match c
    case Text(s) => s != ""
    case Number(x) => x != 0.0
  }

  datatype Format = Plain | Bold | Amber

  datatype FormattedCell = FormattedCell(value: Cell, format: Format)

  /** The cells of a report row, in column order. */
  function RowCells(r: ReportRow): (cells: seq<Cell>)
    ensures |cells| == 10 && cells[NoteColumn] == Text(r.note)
  {
    [Text(r.saleOrderName), Text(r.purchaseOrderName), Number(r.saleCost), Number(r.purchaseUnitPrice),
     Number(r.quantity), Number(r.priceDifference), Text(r.productCode), Text(r.productName),
     Text(r.customer), Text(r.note)]
  }

  /** The width the header loop gives column `col`: the header's length,
      widened by 15 for the product code column and by 40 for the product
      name and customer columns. */
  function HeaderColumnWidth(col: nat, header: string): (w: nat)
    ensures col == 6 ==> w == |header| + 15
    ensures (col == 7 || col == 8) ==> w == |header| + 40
    ensures col != 6 && col != 7 && col != 8 ==> w == |header|
  {
    var width := |header|;
    var width := if col == 6 then width + 15 else width;
    if col == 7 || col == 8 then width + 40 else width
  }

  /** The format of a data cell: amber exactly for a truthy value in the
      note column. */
  function CellFormat(col: nat, value: Cell): (f: Format)
    ensures f == Amber <==> col == NoteColumn && Truthy(value)
    ensures f != Bold
  {
    if col == NoteColumn && Truthy(value) then Amber else Plain
  }

  /** The sheet's cells: row 0 holds the nine headers in bold, row k + 1
      the ten cells of report row k in column order; a data cell is amber
      exactly when it is the note of a row whose note is not empty. */
  function Layout(rows: seq<ReportRow>): (sheet: seq<seq<FormattedCell>>)
    ensures |sheet| == |rows| + 1
    ensures |sheet[0]| == 9
    ensures forall c :: 0 <= c < 9 ==> sheet[0][c] == FormattedCell(Text(HeaderValues[c]), Bold)
    ensures forall k :: 0 <= k < |rows| ==>
      && |sheet[k + 1]| == 10
      && forall c :: 0 <= c < 10 ==>
           && sheet[k + 1][c].value == RowCells(rows[k])[c]
           && (sheet[k + 1][c].format == Amber <==> c == NoteColumn && rows[k].note != "")
  {
    [seq(|HeaderValues|, c requires 0 <= c < |HeaderValues| => FormattedCell(Text(HeaderValues[c]), Bold))]
    + seq(|rows|, k requires 0 <= k < |rows| =>
        var cells := RowCells(rows[k]);
        seq(|cells|, c requires 0 <= c < |cells| => FormattedCell(cells[c], CellFormat(c, cells[c]))))
  }

  /** The last report row with a non-empty note, if any. */
  function LastNoteIndex(rows: seq<ReportRow>): (r: Option<nat>)
    ensures r.None? <==> forall k :: 0 <= k < |rows| ==> rows[k].note == ""
    ensures r.Some? ==> r.value < |rows| && rows[r.value].note != ""
    ensures r.Some? ==> forall k :: r.value < k < |rows| ==> rows[k].note == ""
  {
    if rows == [] then None
    else if rows[|rows| - 1].note != "" then Some(|rows| - 1)
    else
      var front := rows[..|rows| - 1];
      assert forall k :: 0 <= k < |front| ==> front[k] == rows[k];
      LastNoteIndex(front)
  }

  /** The width column `col` ends with, `None` for the sheet's default.
      Each highlighted note sets the note column to its length, so the last
      non-empty note decides it; the other columns keep their header width. */
  function FinalColumnWidth(col: nat, rows: seq<ReportRow>): (w: Option<nat>)
    ensures col < |HeaderValues| ==> w == Some(HeaderColumnWidth(col, HeaderValues[col]))
    ensures col == NoteColumn ==>
      (w.None? <==> forall k :: 0 <= k < |rows| ==> rows[k].note == "")
    ensures col == NoteColumn && w.Some? ==>
      exists k :: 0 <= k < |rows| && w.value == |rows[k].note| && rows[k].note != ""
        && forall k' :: k < k' < |rows| ==> rows[k'].note == ""
    ensures col > NoteColumn ==> w.None?
  {
    if col == NoteColumn then
      match LastNoteIndex(rows)
      case None => None
      case Some(k) => Some(|rows[k].note|)
    else if col < |HeaderValues| then Some(HeaderColumnWidth(col, HeaderValues[col]))
    else None
  }

  /** The header widths of the report: 10, 14, 18, 28, 8, 16, then 12 + 15,
      12 + 40 and 8 + 40. */
  lemma HeaderWidthsOfTheReport()
    ensures seq(9, c requires 0 <= c < 9 => HeaderColumnWidth(c, HeaderValues[c]))
      == [10, 14, 18, 28, 8, 16, 27, 52, 48]
  {
  }
}
