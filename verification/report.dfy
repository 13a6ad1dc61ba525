/** The sales report (src/pages/Report.tsx): parts are selected by id, and the selection is
    laid out as a grid (header, one row per part, total row), turned into a sheet whose
    price columns get a money format, and offered as a CSV or XLSX download. The
    spreadsheet library's conversions are parameters of the model. */
module Report {
  import opened Parts
  import Seqs
  import TextFilter

  datatype Format = Csv | Xlsx

  /** A grid cell's content: text, a count, or an amount of money in cents. */
  datatype Value = Text(s: string) | Count(n: int) | Money(cents: int)

  type Row = seq<Value>

  datatype ReportError = EmptySelection | ExportFailed

  /** What is offered for download. */
  datatype Download =
    | CsvFile(name: string, text: string)
    | XlsxFile(name: string, sheetName: string, cells: map<Addr, Cell>)

  /** A sheet address: a column letter and a 1-based row number (`C2`, `D7`, ...). */
  datatype Addr = Addr(col: char, row: int)

  /** A sheet cell: whether it is typed as a number (`t: 'n'`), its value and its display format (`z`). */
  datatype Cell = Cell(numeric: bool, value: Value, format: string)

  const MoneyFormat := "#,##0.00"
  const SheetName := "Relatório de Vendas"
  const ByteOrderMark: char := '\U{FEFF}'

  // ---------------------------------------------------------------- totals

  function LineTotal(p: Part): int
  {
    p.price * p.quantity
  }

  /** `parts.reduce((sum, part) => sum + part.price * part.quantity, sum)`, folding from the left. */
  function ReduceTotal(sum: int, parts: seq<Part>): int
    decreases |parts|
  {
    if parts == [] then sum else ReduceTotal(sum + LineTotal(parts[0]), parts[1..])
  }

  /** `totalValue`. */
  function TotalValue(selected: seq<Part>): int
  {
    ReduceTotal(0, selected)
  }

  /** The sum of the line totals, as a reference definition. */
  function SumOfLineTotals(parts: seq<Part>): int
  {
    if parts == [] then 0 else LineTotal(parts[0]) + SumOfLineTotals(parts[1..])
  }

  lemma {:induction false} ReduceIsSum(sum: int, parts: seq<Part>)
    ensures ReduceTotal(sum, parts) == sum + SumOfLineTotals(parts)
    decreases |parts|
  {
    if parts != [] {
      ReduceIsSum(sum + LineTotal(parts[0]), parts[1..]);
    }
  }

  /** The report's total is the sum of `price * quantity` over the selection. */
  lemma TotalValueIsSum(selected: seq<Part>)
    ensures TotalValue(selected) == SumOfLineTotals(selected)
  {
    ReduceIsSum(0, selected);
  }

  lemma {:induction false} SumConcat(a: seq<Part>, b: seq<Part>)
    ensures SumOfLineTotals(a + b) == SumOfLineTotals(a) + SumOfLineTotals(b)
  {
    if a == [] {
      assert a + b == b;
    } else {
      SumConcat(a[1..], b);
      assert (a + b)[1..] == a[1..] + b;
    }
  }

  /** With no negative prices or stocks, the total is not negative. */
  lemma {:induction false} TotalNonNegative(selected: seq<Part>)
    requires forall i :: 0 <= i < |selected| ==> selected[i].price >= 0 && selected[i].quantity >= 0
    ensures TotalValue(selected) >= 0
  {
    TotalValueIsSum(selected);
    SumNonNegative(selected);
  }

  lemma {:induction false} SumNonNegative(parts: seq<Part>)
    requires forall i :: 0 <= i < |parts| ==> parts[i].price >= 0 && parts[i].quantity >= 0
    ensures SumOfLineTotals(parts) >= 0
  {
    if parts != [] {
      SumNonNegative(parts[1..]);
    }
  }

  // ---------------------------------------------------------------- selection

  /** `togglePartSelection`: a part whose id is selected is dropped (every entry with that id);
      any other part is appended. */
  function Toggle(selected: seq<Part>, part: Part): seq<Part>
  {
    if HasId(selected, part.id) then WithoutId(selected, part.id) else selected + [part]
  }

  /** Toggling flips whether the part's id is selected and leaves every other entry alone. */
  lemma ToggleSpec(selected: seq<Part>, part: Part)
    ensures HasId(Toggle(selected, part), part.id) <==> !HasId(selected, part.id)
    ensures forall q: Part :: q.id != part.id ==> (q in Toggle(selected, part) <==> q in selected)
    ensures !HasId(selected, part.id) ==> Toggle(selected, part) == selected + [part]
    ensures HasId(selected, part.id) ==> Seqs.IsSubsequence(Toggle(selected, part), selected)
    ensures HasId(selected, part.id) ==>
      forall q :: multiset(Toggle(selected, part))[q] == if q.id != part.id then multiset(selected)[q] else 0
  {
    WithoutIdSpec(selected, part.id);
    if !HasId(selected, part.id) {
      assert (selected + [part])[|selected|] == part;
    }
  }

  /** Toggling an unselected part twice gives the selection back unchanged. */
  lemma ToggleTwiceRestores(selected: seq<Part>, part: Part)
    requires !HasId(selected, part.id)
    ensures Toggle(Toggle(selected, part), part) == selected
  {
    assert (selected + [part])[|selected|] == part;
    assert HasId(selected + [part], part.id);
    Seqs.FilterConcat(IdIsNot(part.id), selected, [part]);
    WithoutIdSpec(selected, part.id);
    assert Seqs.Filter(IdIsNot(part.id), [part]) == [] by {
      assert [part][1..] == [];
    }
  }

  /** Selecting an unselected part raises the report total by exactly that part's line total. */
  lemma ToggleAddsLineTotal(selected: seq<Part>, part: Part)
    requires !HasId(selected, part.id)
    ensures TotalValue(Toggle(selected, part)) == TotalValue(selected) + LineTotal(part)
  {
    TotalValueIsSum(selected);
    TotalValueIsSum(selected + [part]);
    SumConcat(selected, [part]);
    assert SumOfLineTotals([part]) == LineTotal(part) by {
      assert [part][1..] == [];
    }
  }

  /** `handleSelectAll`: equal lengths clear the selection, otherwise the filtered list becomes it. */
  function SelectAll(selected: seq<Part>, filtered: seq<Part>): seq<Part>
  {
    if |selected| == |filtered| then [] else filtered
  }

  /** Select-all ends with either nothing or the whole filtered list selected; it looks only at the
      two lengths, so two selections of equal length are treated alike whatever they hold. */
  lemma SelectAllSpec(selected: seq<Part>, other: seq<Part>, filtered: seq<Part>)
    ensures SelectAll(selected, filtered) == [] || SelectAll(selected, filtered) == filtered
    ensures SelectAll(selected, filtered) == [] <==> |selected| == |filtered| || filtered == []
    ensures |selected| == |other| ==> SelectAll(selected, filtered) == SelectAll(other, filtered)
  {
  }

  // ---------------------------------------------------------------- grid

  const Header: Row := [Text("Nome da Peça"), Text("Quantidade Vendida"), Text("Preço Unitário (R$)"), Text("Valor Total (R$)")]

  function PartRow(p: Part): Row
  {
    [Text(p.name), Count(p.quantity), Money(p.price), Money(LineTotal(p))]
  }

  function TotalRow(total: int): Row
  {
    [Text(""), Text(""), Text("TOTAL:"), Money(total)]
  }

  /** The `data` array of `handleGenerateReport`. */
  function ReportData(selected: seq<Part>): seq<Row>
  {
    [Header] + seq(|selected|, i requires 0 <= i < |selected| => PartRow(selected[i])) + [TotalRow(TotalValue(selected))]
  }

  /** The grid has a header row, then one row per selected part in selection order, then the total row. */
  lemma ReportDataShape(selected: seq<Part>)
    ensures var data := ReportData(selected);
      && |data| == |selected| + 2
      && data[0] == Header
      && (forall i :: 0 <= i < |selected| ==> data[i + 1] == PartRow(selected[i]))
      && data[|data| - 1] == TotalRow(SumOfLineTotals(selected))
      && (forall i :: 0 <= i < |data| ==> |data[i]| == 4)
  {
    TotalValueIsSum(selected);
  }

  /** A part with 7 in stock at 25.00 yields the row ("Filtro", 7, 25.00, 175.00) and a total of 175.00. */
  lemma ReportExample()
    ensures var filter := Part("1", "Filtro", "", 7, 2500, "", "", "");
      ReportData([filter]) == [Header, [Text("Filtro"), Count(7), Money(2500), Money(17500)], TotalRow(17500)]
  {
    var filter := Part("1", "Filtro", "", 7, 2500, "", "", "");
    assert [filter][1..] == [];
  }

  // ---------------------------------------------------------------- sheet

  /** The loop `for (let i = 2; i <= last; i++)` writes columns C and D of row `i`. */
  predicate Formatted(a: Addr, last: int)
  {
    (a.col == 'C' || a.col == 'D') && 2 <= a.row <= last
  }

  function ColumnIndex(col: char): nat
  {
    if col == 'C' then 2 else 3
  }

  function MoneyCell(v: Value): Cell
  {
    Cell(true, v, MoneyFormat)
  }

  /** The sheet once rows 2..last have had columns C and D replaced by money-formatted number cells
      holding `data[row - 1][2]` and `data[row - 1][3]`, one row after the other. */
  function MoneyFormattedUpTo(cells: map<Addr, Cell>, data: seq<Row>, last: int): map<Addr, Cell>
    requires last <= |data|
    requires forall i :: 0 <= i < |data| ==> |data[i]| == 4
    decreases last
  {
    if last < 2 then cells
    else MoneyFormattedUpTo(cells, data, last - 1)
           [Addr('C', last) := MoneyCell(data[last - 1][2])]
           [Addr('D', last) := MoneyCell(data[last - 1][3])]
  }

  /** The loop touches exactly columns C and D of rows 2..last: those cells hold the money-formatted
      values of the grid, every other cell is as it was. */
  lemma {:induction false} MoneyFormattedSpec(cells: map<Addr, Cell>, data: seq<Row>, last: int)
    requires last <= |data|
    requires forall i :: 0 <= i < |data| ==> |data[i]| == 4
    ensures var r := MoneyFormattedUpTo(cells, data, last);
      && (forall a :: a in r <==> a in cells || Formatted(a, last))
      && (forall a :: a in r && !Formatted(a, last) ==> r[a] == cells[a])
      && (forall a :: Formatted(a, last) ==> a in r && r[a] == MoneyCell(data[a.row - 1][ColumnIndex(a.col)]))
    decreases last
  {
    if last >= 2 {
      MoneyFormattedSpec(cells, data, last - 1);
    }
  }

  /** The sheet after the whole formatting loop. */
  function MoneyFormatted(cells: map<Addr, Cell>, data: seq<Row>): map<Addr, Cell>
    requires forall i :: 0 <= i < |data| ==> |data[i]| == 4
  {
    MoneyFormattedUpTo(cells, data, |data|)
  }

  /** In the formatted report sheet, the row of the i-th selected part holds its unit price in column C
      and its line total in column D, both as money. */
  lemma FormattedPartRow(cells: map<Addr, Cell>, selected: seq<Part>, i: int)
    requires 0 <= i < |selected|
    ensures forall k :: 0 <= k < |ReportData(selected)| ==> |ReportData(selected)[k]| == 4
    ensures var sheet := MoneyFormatted(cells, ReportData(selected));
      && Addr('C', i + 2) in sheet && sheet[Addr('C', i + 2)] == MoneyCell(Money(selected[i].price))
      && Addr('D', i + 2) in sheet && sheet[Addr('D', i + 2)] == MoneyCell(Money(LineTotal(selected[i])))
  {
    ReportDataShape(selected);
    var data := ReportData(selected);
    FormattedCell(cells, data, Addr('C', i + 2));
    FormattedCell(cells, data, Addr('D', i + 2));
    assert data[i + 1] == PartRow(selected[i]);
  }

  /** In the formatted report sheet, the last row holds the grand total in column D as money, and the
      "TOTAL:" label in column C, which the loop also marks as a number cell. */
  lemma FormattedTotalRow(cells: map<Addr, Cell>, selected: seq<Part>)
    ensures forall k :: 0 <= k < |ReportData(selected)| ==> |ReportData(selected)[k]| == 4
    ensures var sheet := MoneyFormatted(cells, ReportData(selected));
      && Addr('C', |selected| + 2) in sheet && sheet[Addr('C', |selected| + 2)] == MoneyCell(Text("TOTAL:"))
      && Addr('D', |selected| + 2) in sheet && sheet[Addr('D', |selected| + 2)] == MoneyCell(Money(SumOfLineTotals(selected)))
  {
    ReportDataShape(selected);
    var data := ReportData(selected);
    assert data[|selected| + 1] == TotalRow(SumOfLineTotals(selected));
    FormattedCell(cells, data, Addr('C', |selected| + 2));
    FormattedCell(cells, data, Addr('D', |selected| + 2));
  }

  lemma FormattedCell(cells: map<Addr, Cell>, data: seq<Row>, a: Addr)
    requires forall i :: 0 <= i < |data| ==> |data[i]| == 4
    requires Formatted(a, |data|)
    ensures a in MoneyFormatted(cells, data)
    ensures MoneyFormatted(cells, data)[a] == MoneyCell(data[a.row - 1][ColumnIndex(a.col)])
  {
    MoneyFormattedSpec(cells, data, |data|);
  }

  /** The sheet produced by the spreadsheet library: `XLSX.utils.aoa_to_sheet(data)`. The formatting
      loop then works on it in place. */
  class Sheet {
    var cells: map<Addr, Cell>

    constructor (cells: map<Addr, Cell>)
      ensures this.cells == cells
    {
      this.cells := cells;
    }

    /** The loop that gives rows 2..|data| of columns C and D the money format. */
    method FormatMoneyColumns(data: seq<Row>)
      requires |data| >= 1
      requires forall i :: 0 <= i < |data| ==> |data[i]| == 4
      modifies this
      ensures cells == MoneyFormatted(old(cells), data)
    {
      var i := 2;
      while i <= |data|
        invariant 2 <= i <= |data| + 1
        invariant cells == MoneyFormattedUpTo(old(cells), data, i - 1)
      {
        cells := cells[Addr('C', i) := MoneyCell(data[i - 1][2])];
        cells := cells[Addr('D', i) := MoneyCell(data[i - 1][3])];
        i := i + 1;
      }
    }
  }

  // ---------------------------------------------------------------- files

  function FileName(date: string, format: Format): string
  {
    "relatorio_vendas_" + date + (if format == Csv then ".csv" else ".xlsx")
  }

  /** What `handleGenerateReport` delivers. `toSheet` stands for `aoa_to_sheet`, `toCsv` for
      `sheet_to_csv` with `;` between fields, and `writeFails` for `writeFile` throwing. */
  function GenerateReport(selected: seq<Part>, format: Format, date: string,
                          toSheet: seq<Row> -> map<Addr, Cell>, toCsv: map<Addr, Cell> -> string,
                          writeFails: bool): Result<Download, ReportError>
  {
    if |selected| == 0 then Failure(EmptySelection)
    else
      ReportDataShape(selected);
      var data := ReportData(selected);
      var sheet := MoneyFormatted(toSheet(data), data);
      match format
      case Csv => Success(CsvFile(FileName(date, Csv), [ByteOrderMark] + toCsv(sheet)))
      case Xlsx => if writeFails then Failure(ExportFailed) else Success(XlsxFile(FileName(date, Xlsx), SheetName, sheet))
  }

  /** An empty selection is refused with no file; otherwise a CSV always comes out, named after the date
      and starting with the byte-order mark, and an XLSX comes out unless writing it fails. */
  lemma GenerateReportSpec(selected: seq<Part>, format: Format, date: string,
                           toSheet: seq<Row> -> map<Addr, Cell>, toCsv: map<Addr, Cell> -> string,
                           writeFails: bool)
    ensures var r := GenerateReport(selected, format, date, toSheet, toCsv, writeFails);
      && (r == Failure(EmptySelection) <==> selected == [])
      && (r == Failure(ExportFailed) <==> selected != [] && format == Xlsx && writeFails)
      && (r.Success? ==> r.value.name == "relatorio_vendas_" + date + (if format == Csv then ".csv" else ".xlsx"))
      && (r.Success? && format == Csv ==> r.value.CsvFile? && |r.value.text| >= 1 && r.value.text[0] == ByteOrderMark)
      && (r.Success? && format == Xlsx ==> r.value.XlsxFile? && r.value.sheetName == SheetName)
  {
  }

  /** The report page's state. */
  class ReportPage {
    /** The `parts` prop. */
    var parts: seq<Part>
    var selectedParts: seq<Part>
    var filteredParts: seq<Part>
    var showFormatModal: bool

    constructor (parts: seq<Part>)
      ensures this.parts == parts && selectedParts == [] && filteredParts == parts && !showFormatModal
    {
      this.parts := parts;
      selectedParts := [];
      filteredParts := parts;
      showFormatModal := false;
    }

    /** A new `parts` prop: `filteredParts` was seeded once by `useState` and does not follow it. */
    method SetParts(parts: seq<Part>)
      modifies this`parts
      ensures this.parts == parts
    {
      this.parts := parts;
    }

    /** `handleSearch`: the selection is kept as it is. */
    method HandleSearch(term: string)
      modifies this`filteredParts
      ensures filteredParts == TextFilter.Search(parts, term)
    {
      if TextFilter.IsBlank(term) {
        filteredParts := parts;
        return;
      }
      filteredParts := TextFilter.Matching(parts, term);
    }

    method TogglePartSelection(part: Part)
      modifies this`selectedParts
      ensures selectedParts == Toggle(old(selectedParts), part)
    {
      if HasId(selectedParts, part.id) {
        selectedParts := WithoutId(selectedParts, part.id);
      } else {
        selectedParts := selectedParts + [part];
      }
    }

    method HandleSelectAll()
      modifies this`selectedParts
      ensures selectedParts == SelectAll(old(selectedParts), filteredParts)
    {
      if |selectedParts| == |filteredParts| {
        selectedParts := [];
      } else {
        selectedParts := filteredParts;
      }
    }

    /** The "generate report" button: disabled while nothing is selected, otherwise opens the format choice. */
    method ClickGenerate()
      modifies this`showFormatModal
      ensures showFormatModal == (old(showFormatModal) || selectedParts != [])
    {
      if |selectedParts| != 0 {
        showFormatModal := true;
      }
    }

    /** `handleGenerateReport`: builds the grid and the sheet, runs the formatting loop on the sheet
        and delivers the file; the format choice closes unless the selection was empty. */
    method HandleGenerateReport(format: Format, date: string,
                                toSheet: seq<Row> -> map<Addr, Cell>, toCsv: map<Addr, Cell> -> string,
                                writeFails: bool) returns (r: Result<Download, ReportError>)
      modifies this`showFormatModal
      ensures r == GenerateReport(selectedParts, format, date, toSheet, toCsv, writeFails)
      ensures showFormatModal == (old(showFormatModal) && selectedParts == [])
    {
      if |selectedParts| == 0 {
        return Failure(EmptySelection);
      }
      ReportDataShape(selectedParts);
      var data := ReportData(selectedParts);
      var ws := new Sheet(toSheet(data));
      ws.FormatMoneyColumns(data);
      if format == Csv {
        r := Success(CsvFile(FileName(date, Csv), [ByteOrderMark] + toCsv(ws.cells)));
      } else if writeFails {
        r := Failure(ExportFailed);
      } else {
        r := Success(XlsxFile(FileName(date, Xlsx), SheetName, ws.cells));
      }
      showFormatModal := false;
    }
  }
}
