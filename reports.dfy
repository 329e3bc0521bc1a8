/** The report page (app/reports/page.tsx), "Impuestos y Neto": one row per
    saved day with charges, petty cash, total sales, collected amount and
    deposit, an inclusive date filter, the column totals, and the CSV text the
    page offers for download. */
module Reports {
  import opened Common
  import opened Text
  import opened Store
  import opened DateRange
  import opened RecordJoin
  import Vault
  import Daily

  datatype ReportRow = ReportRow(
    id: string, date: string, dayName: string,
    charges: real, pettyCash: real, totalSales: real, collected: real, deposit: real)

  /** One day of `loadReports`: each figure is the first row of the whole fetched
      table with the day's id and the category or label, or 0. */
  function ReportRowOf(record: DailyRecord, allSales: Option<seq<SalesRow>>,
                       allSummary: Option<seq<SummaryRow>>): ReportRow
  {
    var id := record.id;
    ReportRow(id, record.date, record.dayName,
              SalesLookup(allSales, SaleOf(id, ChargesCategory)),
              SummaryLookup(allSummary, SummaryOf(id, PettyCashLabel)),
              SummaryLookup(allSummary, SummaryOf(id, TotalSalesLabel)),
              SalesLookup(allSales, SaleOf(id, CollectedCategory)),
              SummaryLookup(allSummary, SummaryOf(id, DepositLabel)))
  }

  /** `records.map(...)`: one row per day, in the order of the days. */
  function BuildReport(records: seq<DailyRecord>, allSales: Option<seq<SalesRow>>,
                       allSummary: Option<seq<SummaryRow>>): (r: seq<ReportRow>)
    ensures |r| == |records|
    ensures forall i :: 0 <= i < |records| ==>
              r[i].id == records[i].id && r[i].date == records[i].date && r[i].dayName == records[i].dayName
  {
    seq(|records|, i requires 0 <= i < |records| => ReportRowOf(records[i], allSales, allSummary))
  }

  /** The report and the vault page show the same charges, total sales,
      collected amount and deposit for a day. */
  lemma ReportAgreesWithVault(record: DailyRecord, allSales: Option<seq<SalesRow>>,
                              allSummary: Option<seq<SummaryRow>>)
    ensures var row, vault := ReportRowOf(record, allSales, allSummary), Vault.ProcessRecord(record, allSales, allSummary);
            && row.charges == vault.charges && row.totalSales == vault.totalSales
            && row.collected == vault.collected && row.deposit == vault.deposit
  {
    Vault.ProcessRecordReadsBack(record, allSales, allSummary);
  }

  /** A day the daily page has just saved into tables holding no row of it is
      reported with the figures the daily page computed. */
  lemma ReportOfSavedDay(record: DailyRecord, sales: seq<SalesRow>, summary: seq<SummaryRow>,
                         f: Daily.DailyForm, pettyCash: real)
    requires forall i :: 0 <= i < |sales| ==> sales[i].recordId != record.id
    requires forall i :: 0 <= i < |summary| ==> summary[i].recordId != record.id
    ensures ReportRowOf(record, Some(sales + Daily.SalesRows(record.id, f)),
                        Some(summary + Daily.SummaryRows(record.id, f, pettyCash)))
            == ReportRow(record.id, record.date, record.dayName, ParsedOrZero(f.charges), pettyCash,
                         Daily.TotalByMethod(f), Daily.Collected(f), ParsedOrZero(f.deposit))
  {
    SavedSalesReadBack(sales, record.id, f);
    SavedTotalsReadBack(summary, record.id, f, pettyCash);
    SavedBalanceReadBack(summary, record.id, f, pettyCash);
  }

  // ---------------------------------------------------------------------------
  // filter and totals

  function RowDate(r: ReportRow): string
  {
    r.date
  }

  function InRangeOf(start: string, end: string): ReportRow -> bool
  {
    (r: ReportRow) => InRange(r.date, start, end)
  }

  /** `getFilteredData` */
  function FilteredData(rows: seq<ReportRow>, start: string, end: string): seq<ReportRow>
  {
    ByDateRange(rows, RowDate, start, end)
  }

  /** The filtered rows are exactly the rows in range, in their order. */
  lemma FilteredDataSpec(rows: seq<ReportRow>, start: string, end: string)
    ensures FilteredData(rows, start, end) == Filter(rows, InRangeOf(start, end))
    ensures SubsequenceOf(FilteredData(rows, start, end), rows)
    ensures FilteredData(rows, "", "") == rows
  {
    ByDateRangeIsFilter(rows, RowDate, start, end, InRangeOf(start, end));
    FilterIsSubsequence(rows, InRangeOf(start, end));
  }

  datatype ReportTotals = ReportTotals(
    charges: real, pettyCash: real, totalSales: real, collected: real, deposit: real)

  function Charges(r: ReportRow): real { r.charges }
  function PettyCash(r: ReportRow): real { r.pettyCash }
  function TotalSales(r: ReportRow): real { r.totalSales }
  function Collected(r: ReportRow): real { r.collected }
  function Deposit(r: ReportRow): real { r.deposit }

  /** `getTotals`: the `reduce` sum of each column. */
  function TotalsOf(rows: seq<ReportRow>): ReportTotals
  {
    ReportTotals(Sum(rows, Charges), Sum(rows, PettyCash), Sum(rows, TotalSales), Sum(rows, Collected), Sum(rows, Deposit))
  }

  /** Each column total grows by the row's own figure when a row is added; no
      rows give zeros. */
  lemma TotalsAppend(rows: seq<ReportRow>, r: ReportRow)
    ensures TotalsOf([]) == ReportTotals(0.0, 0.0, 0.0, 0.0, 0.0)
    ensures TotalsOf(rows + [r])
            == ReportTotals(TotalsOf(rows).charges + r.charges, TotalsOf(rows).pettyCash + r.pettyCash,
                            TotalsOf(rows).totalSales + r.totalSales, TotalsOf(rows).collected + r.collected,
                            TotalsOf(rows).deposit + r.deposit)
  {
    assert (rows + [r])[..|rows|] == rows;
  }

  // ---------------------------------------------------------------------------
  // the CSV text of `downloadCSV`

  const Headers: seq<string> :=
    ["Fecha", "Día", "Cargos y Comisiones", "Gastos Menores", "Total Ventas", "Monto Recaudado", "Depósito"]

  /** The cells of a day; `fmt` is `toFixed(2)`. */
  function RowCells(r: ReportRow, fmt: real -> string): seq<string>
  {
    [r.date, r.dayName, fmt(r.charges), fmt(r.pettyCash), fmt(r.totalSales), fmt(r.collected), fmt(r.deposit)]
  }

  /** The cells of the TOTAL row pushed after the days. */
  function TotalCells(t: ReportTotals, fmt: real -> string): seq<string>
  {
    ["", "TOTAL", fmt(t.charges), fmt(t.pettyCash), fmt(t.totalSales), fmt(t.collected), fmt(t.deposit)]
  }

  /** The header, one row per filtered day, and the TOTAL row. */
  function CsvTable(data: seq<ReportRow>, fmt: real -> string): (table: seq<seq<string>>)
    ensures |table| == |data| + 2
    ensures forall i :: 0 <= i < |table| ==> |table[i]| == 7
    ensures table[0] == Headers && table[|data| + 1] == TotalCells(TotalsOf(data), fmt)
    ensures table[|data| + 1][0] == "" && table[|data| + 1][1] == "TOTAL"
    ensures forall i :: 0 <= i < |data| ==> table[i + 1] == RowCells(data[i], fmt)
  {
    [Headers] + seq(|data|, i requires 0 <= i < |data| => RowCells(data[i], fmt)) + [TotalCells(TotalsOf(data), fmt)]
  }

  /** `row.join(",")` for every row. */
  function Lines(table: seq<seq<string>>): (lines: seq<string>)
    ensures |lines| == |table|
  {
    seq(|table|, i requires 0 <= i < |table| => Join(table[i], ','))
  }

  /** The CSV text: the lines joined by "\n". */
  function Csv(data: seq<ReportRow>, fmt: real -> string): string
  {
    Join(Lines(CsvTable(data, fmt)), '\n')
  }

  /** A cell that holds neither a comma nor a line break. */
  predicate PlainCell(s: string)
  {
    ',' !in s && '\n' !in s
  }

  predicate PlainRow(cells: seq<string>)
  {
    forall k :: 0 <= k < |cells| ==> PlainCell(cells[k])
  }

  lemma HeadersPlain()
    ensures PlainRow(Headers)
  {
    assert PlainCell("Fecha");
    assert PlainCell("Día");
    assert PlainCell("Cargos y Comisiones");
    assert PlainCell("Gastos Menores");
    assert PlainCell("Total Ventas");
    assert PlainCell("Monto Recaudado");
    assert PlainCell("Depósito");
  }

  /** Every row of the table is plain when the dates, the day names and the
      formatted figures are. */
  lemma CsvCellsPlain(data: seq<ReportRow>, fmt: real -> string)
    requires forall x :: PlainCell(fmt(x))
    requires forall i :: 0 <= i < |data| ==> PlainCell(data[i].date) && PlainCell(data[i].dayName)
    ensures var table := CsvTable(data, fmt);
            forall i :: 0 <= i < |table| ==> PlainRow(table[i])
  {
    var table := CsvTable(data, fmt);
    HeadersPlain();
    assert PlainRow(TotalCells(TotalsOf(data), fmt));
    forall i | 0 < i <= |data| ensures PlainRow(table[i]) {
      assert table[i] == RowCells(data[i - 1], fmt);
    }
  }

  /** Lines of plain cells, joined, split back into the lines and the cells. */
  lemma LinesReadBack(table: seq<seq<string>>)
    requires |table| >= 1
    requires forall i :: 0 <= i < |table| ==> |table[i]| >= 1 && PlainRow(table[i])
    ensures var lines := Split(Join(Lines(table), '\n'), '\n');
            && lines == Lines(table)
            && forall i :: 0 <= i < |lines| ==> Split(lines[i], ',') == table[i]
  {
    var lines := Lines(table);
    forall i | 0 <= i < |lines|
      ensures '\n' !in lines[i] && Split(lines[i], ',') == table[i]
    {
      JoinAvoids(table[i], ',', '\n');
      SplitJoin(table[i], ',');
    }
    SplitJoin(lines, '\n');
  }

  /** When no cell holds a comma or a line break, the CSV text reads back as
      its table: `|data| + 2` lines, each splitting into its 7 cells. */
  lemma CsvReadsBack(data: seq<ReportRow>, fmt: real -> string)
    requires forall x :: PlainCell(fmt(x))
    requires forall i :: 0 <= i < |data| ==> PlainCell(data[i].date) && PlainCell(data[i].dayName)
    ensures var table, lines := CsvTable(data, fmt), Split(Csv(data, fmt), '\n');
            && |lines| == |data| + 2
            && forall i :: 0 <= i < |lines| ==> Split(lines[i], ',') == table[i]
  {
    CsvCellsPlain(data, fmt);
    LinesReadBack(CsvTable(data, fmt));
  }

  const FilePrefix: string := "reporte-impuestos-neto"

  /** The download name: the date range only when both bounds are set, then the
      day of the download (`today`, the date part of the current ISO time). */
  function CsvFileName(start: string, end: string, today: string): string
  {
    var range := if start != "" && end != "" then "_" + start + "_a_" + end else "";
    FilePrefix + range + "_" + today + ".csv"
  }

  /** Read back at its underscores, the file name gives the bounds exactly when
      both were set. */
  lemma CsvFileNameParts(start: string, end: string, today: string)
    requires '_' !in start && '_' !in end && '_' !in today
    ensures start != "" && end != "" ==>
              Split(CsvFileName(start, end, today), '_') == [FilePrefix, start, "a", end, today + ".csv"]
    ensures start == "" || end == "" ==>
              Split(CsvFileName(start, end, today), '_') == [FilePrefix, today + ".csv"]
  {
    if start != "" && end != "" {
      RangedName(start, end, today);
    } else {
      PlainName(start, end, today);
    }
  }

  /** The name of a report over a date range splits into five parts. */
  lemma RangedName(start: string, end: string, today: string)
    requires '_' !in start && '_' !in end && '_' !in today
    requires start != "" && end != ""
    ensures Split(CsvFileName(start, end, today), '_') == [FilePrefix, start, "a", end, today + ".csv"]
  {
    LastPart(today);
    SplitFive(FilePrefix, start, end, today + ".csv");
    Regroup(FilePrefix, start, end, today);
    assert CsvFileName(start, end, today) == FilePrefix + ("_" + start + "_a_" + end) + "_" + today + ".csv";
  }

  /** Splitting `p_s_a_e_l` at its underscores. */
  lemma SplitFive(p: string, s: string, e: string, l: string)
    requires '_' !in p && '_' !in s && '_' !in e && '_' !in l
    ensures Split(p + "_" + (s + "_" + ("a" + "_" + (e + "_" + l))), '_') == [p, s, "a", e, l]
  {
    var t3 := e + "_" + l;
    var t2 := "a" + "_" + t3;
    var t1 := s + "_" + t2;
    assert '_' !in "a";
    SplitWhole(l, '_');
    SplitAtFirst(e, l, '_');
    SplitAtFirst("a", t3, '_');
    SplitAtFirst(s, t2, '_');
    SplitAtFirst(p, t1, '_');
  }

  /** The file name written with its pieces nested to the right. */
  lemma Regroup(p: string, s: string, e: string, t: string)
    ensures p + ("_" + s + "_a_" + e) + "_" + t + ".csv" == p + "_" + (s + "_" + ("a" + "_" + (e + "_" + (t + ".csv"))))
  {
  }

  /** The name of a report without a date range splits into two parts. */
  lemma PlainName(start: string, end: string, today: string)
    requires '_' !in today
    requires start == "" || end == ""
    ensures Split(CsvFileName(start, end, today), '_') == [FilePrefix, today + ".csv"]
  {
    var last := today + ".csv";
    LastPart(today);
    SplitAtFirst(FilePrefix, last, '_');
    assert CsvFileName(start, end, today) == FilePrefix + "_" + last;
  }

  /** The last piece, the day and the extension, holds no underscore. */
  lemma LastPart(today: string)
    requires '_' !in today
    ensures Split(today + ".csv", '_') == [today + ".csv"]
    ensures '_' !in FilePrefix && '_' !in "a"
  {
    FixedPartsPlain();
    SplitWhole(today + ".csv", '_');
  }

  /** The fixed pieces of the file name hold no underscore. */
  lemma FixedPartsPlain()
    ensures '_' !in FilePrefix && '_' !in "a" && '_' !in ".csv"
  {
  }

  // ---------------------------------------------------------------------------
  // the page

  class ReportsPage {
    var data: seq<ReportRow>
    var loading: bool
    var startDate: string
    var endDate: string

    constructor ()
      ensures data == [] && loading && startDate == "" && endDate == ""
    {
      data, loading, startDate, endDate := [], true, "", "";
    }

    /** `filteredData` */
    function Filtered(): seq<ReportRow>
      reads this
    {
      FilteredData(data, startDate, endDate)
    }

    /** `totals` */
    function Totals(): ReportTotals
      reads this
    {
      TotalsOf(Filtered())
    }

    /** The text `downloadCSV` saves. */
    function CsvText(fmt: real -> string): string
      reads this
    {
      Csv(Filtered(), fmt)
    }

    /** `loadReports`: `listed` is the store's newest-first listing of the
        days; the sales and summary fetches whose errors are ignored come back
        as None; a failed listing leaves the rows as they were. */
    method LoadReports(tables: DailyTables, listed: seq<DailyRecord>, listFault: Option<string>,
                       salesFault: Option<string>, summaryFault: Option<string>)
      requires Vault.ListedNewestFirst(listed, tables.records)
      modifies this
      ensures listFault.Some? ==> data == old(data)
      ensures listFault.None? ==>
                data == BuildReport(listed, if salesFault.None? then Some(tables.sales) else None,
                                    if summaryFault.None? then Some(tables.summary) else None)
      ensures listFault.None? ==> |data| == |tables.records|
      ensures !loading && startDate == old(startDate) && endDate == old(endDate)
    {
      if listFault.None? {
        assert |listed| == |multiset(listed)| == |multiset(tables.records)| == |tables.records|;
        if |listed| == 0 {
          data := [];
        } else {
          var allSales := if salesFault.None? then Some(tables.sales) else None;
          var allSummary := if summaryFault.None? then Some(tables.summary) else None;
          data := BuildReport(listed, allSales, allSummary);
        }
      }
      loading := false;
    }

    /** `clearFilters`: afterwards every day is in the report and its totals. */
    method ClearFilters()
      modifies this
      ensures startDate == "" && endDate == "" && data == old(data) && loading == old(loading)
      ensures Filtered() == data && Totals() == TotalsOf(data)
    {
      startDate, endDate := "", "";
      FilteredDataSpec(data, "", "");
    }
  }
}
