/** The vault page (app/caja-fuerte/page.tsx): one row per saved day with the
    charges, collected amount, total sales, balance and deposit read from the
    day's sales and summary rows; an inclusive date filter with the totals of
    the rows it shows; and the deletion of a whole day. */
module Vault {
  import opened Common
  import opened Store
  import opened Text
  import opened DateRange
  import opened LocalStorage
  import opened RecordJoin
  import UserName

  /** A processed row of the page. */
  datatype VaultRow = VaultRow(
    id: string, date: string, dayName: string, createdAt: int,
    charges: real, collected: real, totalSales: real, balance: real, deposit: real)

  // ---------------------------------------------------------------------------
  // the join

  function SalesOfRecord(id: string): SalesRow -> bool
  {
    (s: SalesRow) => s.recordId == id
  }

  function SummaryOfRecord(id: string): SummaryRow -> bool
  {
    (s: SummaryRow) => s.recordId == id
  }

  function WithCategory(category: string): SalesRow -> bool
  {
    (s: SalesRow) => s.category == category
  }

  function WithLabel(wanted: string): SummaryRow -> bool
  {
    (s: SummaryRow) => s.labelName == wanted
  }

  function WithBalanceLabel(): SummaryRow -> bool
  {
    (s: SummaryRow) => s.labelName == BalanceLabel || s.labelName == LegacyBalanceLabel
  }

  /** One day of `loadRecords`: the day's own sales and summary rows first
      (`allSales?.filter(...) || []`), then the first row with each category or
      label. */
  function ProcessRecord(record: DailyRecord, allSales: Option<seq<SalesRow>>,
                         allSummary: Option<seq<SummaryRow>>): VaultRow
  {
    var sales := if allSales.None? then [] else Filter(allSales.value, SalesOfRecord(record.id));
    var summary := if allSummary.None? then [] else Filter(allSummary.value, SummaryOfRecord(record.id));
    VaultRow(record.id, record.date, record.dayName, record.createdAt,
             SalesAmount(FindFirst(sales, WithCategory(ChargesCategory))),
             SalesAmount(FindFirst(sales, WithCategory(CollectedCategory))),
             SummaryAmount(FindFirst(summary, WithLabel(TotalSalesLabel))),
             SummaryAmount(FindFirst(summary, WithBalanceLabel())),
             SummaryAmount(FindFirst(summary, WithLabel(DepositLabel))))
  }

  /** `recordsData.map(...)`: one row per day, in the order of the days. */
  function ProcessRecords(records: seq<DailyRecord>, allSales: Option<seq<SalesRow>>,
                          allSummary: Option<seq<SummaryRow>>): (r: seq<VaultRow>)
    ensures |r| == |records|
    ensures forall i :: 0 <= i < |records| ==>
              && r[i].id == records[i].id && r[i].date == records[i].date
              && r[i].dayName == records[i].dayName && r[i].createdAt == records[i].createdAt
  {
    seq(|records|, i requires 0 <= i < |records| => ProcessRecord(records[i], allSales, allSummary))
  }

  /** Filtering by the day and then finding by category or label reads the same
      figures as one lookup by day and category or label over the whole table
      (the form the report page uses), so the two pages agree. */
  lemma ProcessRecordReadsBack(record: DailyRecord, allSales: Option<seq<SalesRow>>,
                               allSummary: Option<seq<SummaryRow>>)
    ensures var row, day := ProcessRecord(record, allSales, allSummary), ReadBack(allSales, allSummary, record.id);
            && row.charges == day.charges && row.collected == day.collected
            && row.totalSales == day.totalSales && row.balance == day.balance && row.deposit == day.deposit
  {
    var id := record.id;
    if allSales.Some? {
      FindFirstOfFilter(allSales.value, SalesOfRecord(id), WithCategory(ChargesCategory), SaleOf(id, ChargesCategory));
      FindFirstOfFilter(allSales.value, SalesOfRecord(id), WithCategory(CollectedCategory), SaleOf(id, CollectedCategory));
    }
    if allSummary.Some? {
      FindFirstOfFilter(allSummary.value, SummaryOfRecord(id), WithLabel(TotalSalesLabel), SummaryOf(id, TotalSalesLabel));
      FindFirstOfFilter(allSummary.value, SummaryOfRecord(id), WithBalanceLabel(), BalanceOf(id));
      FindFirstOfFilter(allSummary.value, SummaryOfRecord(id), WithLabel(DepositLabel), SummaryOf(id, DepositLabel));
    }
  }

  // ---------------------------------------------------------------------------
  // totals

  datatype Totals = Totals(charges: real, collected: real, totalSales: real, balance: real, deposit: real)

  function Charges(r: VaultRow): real { r.charges }
  function Collected(r: VaultRow): real { r.collected }
  function TotalSales(r: VaultRow): real { r.totalSales }
  function BalanceOfRow(r: VaultRow): real { r.balance }
  function Deposit(r: VaultRow): real { r.deposit }

  /** The five `reduce` sums of `applyFilters`. */
  function TotalsOf(rows: seq<VaultRow>): Totals
  {
    Totals(Sum(rows, Charges), Sum(rows, Collected), Sum(rows, TotalSales), Sum(rows, BalanceOfRow), Sum(rows, Deposit))
  }

  function AddRow(t: Totals, r: VaultRow): Totals
  {
    Totals(t.charges + r.charges, t.collected + r.collected, t.totalSales + r.totalSales,
           t.balance + r.balance, t.deposit + r.deposit)
  }

  function AddTotals(a: Totals, b: Totals): Totals
  {
    Totals(a.charges + b.charges, a.collected + b.collected, a.totalSales + b.totalSales,
           a.balance + b.balance, a.deposit + b.deposit)
  }

  const NoTotals: Totals := Totals(0.0, 0.0, 0.0, 0.0, 0.0)

  /** Each total grows by the row's own figure when a row is added. */
  lemma TotalsAppend(rows: seq<VaultRow>, r: VaultRow)
    ensures TotalsOf([]) == NoTotals
    ensures TotalsOf(rows + [r]) == AddRow(TotalsOf(rows), r)
  {
    assert (rows + [r])[..|rows|] == rows;
  }

  /** The totals of the shown days and of the hidden days make up the totals of all days. */
  lemma TotalsPartition(rows: seq<VaultRow>, shows: VaultRow -> bool, hides: VaultRow -> bool)
    requires forall r :: hides(r) == !shows(r)
    ensures AddTotals(TotalsOf(Filter(rows, shows)), TotalsOf(Filter(rows, hides))) == TotalsOf(rows)
  {
    SumPartition(rows, shows, hides, Charges);
    SumPartition(rows, shows, hides, Collected);
    SumPartition(rows, shows, hides, TotalSales);
    SumPartition(rows, shows, hides, BalanceOfRow);
    SumPartition(rows, shows, hides, Deposit);
  }

  // ---------------------------------------------------------------------------
  // the page

  function RowDate(r: VaultRow): string
  {
    r.date
  }

  /** The days `applyFilters` keeps. */
  function InRangeOf(start: string, end: string): VaultRow -> bool
  {
    (r: VaultRow) => InRange(r.date, start, end)
  }

  /** A table after the delete of day `recordId`: without the day's rows, or
      unchanged when the delete failed. */
  function AfterDelete<T>(rows: seq<T>, key: T -> string, recordId: string, deleteFault: Option<string>): seq<T>
  {
    if deleteFault.None? then WithoutKey(rows, key, recordId) else rows
  }

  /** The DELETE audit entry of `handleDelete`, written by `actor`. */
  function DeleteEntry(recordId: string, recordDate: string, dayName: string, actor: string): AuditEntry
  {
    AuditEntry(recordId, actor, Delete, DeletedRecord(recordDate, dayName))
  }

  /** The audit table after the DELETE entry's write: one entry more, unless
      that write failed. */
  function Audited(audit: seq<AuditEntry>, entry: AuditEntry, auditFault: Option<string>): seq<AuditEntry>
  {
    if auditFault.None? then audit + [entry] else audit
  }

  /** The writes of a confirmed `handleDelete`: the DELETE audit entry, whose
      failure is ignored, then the delete of the day, which the store cascades
      to every sales, payment, summary and audit row of it, the new entry
      included. Rows of other days stay. */
  method DeleteDay(recordId: string, recordDate: string, dayName: string, tables: DailyTables,
                   users: KeyValueStore?, answer: Option<string>,
                   auditFault: Option<string>, deleteFault: Option<string>)
    returns (err: Option<string>)
    modifies tables, users
    ensures err == deleteFault
    ensures users != null ==> users.entries == UserName.LookupName(old(users.entries), answer).entries
    ensures tables.records == AfterDelete(old(tables.records), DailyRecordKey, recordId, deleteFault)
    ensures tables.sales == AfterDelete(old(tables.sales), SalesRowKey, recordId, deleteFault)
    ensures tables.payments == AfterDelete(old(tables.payments), PaymentRowKey, recordId, deleteFault)
    ensures tables.summary == AfterDelete(old(tables.summary), SummaryRowKey, recordId, deleteFault)
    ensures var actor := UserName.Actor(if users == null then None else Some(old(users.entries)), answer);
            tables.audit
            == AfterDelete(Audited(old(tables.audit), DeleteEntry(recordId, recordDate, dayName, actor), auditFault),
                           AuditEntryKey, recordId, deleteFault)
    ensures deleteFault.None? ==>
              && (forall i :: 0 <= i < |tables.records| ==> tables.records[i].id != recordId)
              && (forall i :: 0 <= i < |tables.sales| ==> tables.sales[i].recordId != recordId)
              && (forall i :: 0 <= i < |tables.payments| ==> tables.payments[i].recordId != recordId)
              && (forall i :: 0 <= i < |tables.summary| ==> tables.summary[i].recordId != recordId)
              && (forall i :: 0 <= i < |tables.audit| ==> tables.audit[i].recordId != recordId)
  {
    var userName, _ := UserName.GetUserName(users, answer);
    var _ := tables.InsertAudit(DeleteEntry(recordId, recordDate, dayName, userName), auditFault);
    err := tables.DeleteRecord(recordId, deleteFault);
  }

  /** The days the store lists newest first: the table's days, each once, by date descending. */
  predicate ListedNewestFirst(listed: seq<DailyRecord>, table: seq<DailyRecord>)
  {
    && multiset(listed) == multiset(table)
    && forall i, j :: 0 <= i < j < |listed| ==> StrLe(listed[j].date, listed[i].date)
  }

  const DeletedMessage: string := "✅ Registro eliminado correctamente"

  class VaultPage {
    var records: seq<VaultRow>
    var filtered: seq<VaultRow>
    var loading: bool
    var filterStart: string
    var filterEnd: string
    var totals: Totals

    /** `filtered` and `totals` are what `applyFilters` derives from the rows
        and the bounds; the page re-runs it whenever one of those changes. */
    predicate Consistent()
      reads this
    {
      && filtered == ByDateRange(records, RowDate, filterStart, filterEnd)
      && totals == TotalsOf(filtered)
    }

    constructor ()
      ensures records == [] && loading && filterStart == "" && filterEnd == ""
      ensures Consistent() && totals == NoTotals
    {
      records, filtered, loading := [], [], true;
      filterStart, filterEnd, totals := "", "", NoTotals;
    }

    /** `applyFilters`: the days in range, in their order, and their totals. */
    method ApplyFilters()
      modifies this
      ensures Consistent()
      ensures filtered == Filter(records, InRangeOf(filterStart, filterEnd))
      ensures SubsequenceOf(filtered, records)
      ensures totals == TotalsOf(filtered)
      ensures records == old(records) && loading == old(loading)
      ensures filterStart == old(filterStart) && filterEnd == old(filterEnd)
    {
      var inRange := InRangeOf(filterStart, filterEnd);
      ByDateRangeIsFilter(records, RowDate, filterStart, filterEnd, inRange);
      FilterIsSubsequence(records, inRange);
      filtered := ByDateRange(records, RowDate, filterStart, filterEnd);
      totals := TotalsOf(filtered);
    }

    /** A change of a date bound, followed by the re-run of `applyFilters`. */
    method SetFilters(start: string, end: string)
      modifies this
      ensures filterStart == start && filterEnd == end
      ensures Consistent() && records == old(records) && loading == old(loading)
    {
      filterStart, filterEnd := start, end;
      ApplyFilters();
    }

    /** `clearFilters`: afterwards every day is shown and counted. */
    method ClearFilters()
      modifies this
      ensures filterStart == "" && filterEnd == ""
      ensures filtered == records && totals == TotalsOf(records)
      ensures Consistent() && records == old(records) && loading == old(loading)
    {
      SetFilters("", "");
      NoBoundsKeepsAll(records, RowDate);
    }

    /** `loadRecords`: the store lists the days newest first (`listed`); the
        sales and summary fetches whose errors the page ignores come back as
        None. A failed listing leaves the rows as they were. */
    method LoadRecords(tables: DailyTables, listed: seq<DailyRecord>, listFault: Option<string>,
                       salesFault: Option<string>, summaryFault: Option<string>)
      requires ListedNewestFirst(listed, tables.records)
      modifies this
      ensures listFault.Some? ==> records == old(records)
      ensures listFault.None? ==>
                records == ProcessRecords(listed, if salesFault.None? then Some(tables.sales) else None,
                                          if summaryFault.None? then Some(tables.summary) else None)
      ensures listFault.None? ==> |records| == |tables.records|
      ensures !loading && Consistent()
      ensures filterStart == old(filterStart) && filterEnd == old(filterEnd)
    {
      if listFault.None? {
        assert |listed| == |multiset(listed)| == |multiset(tables.records)| == |tables.records|;
        if |listed| == 0 {
          records := [];
        } else {
          var allSales := if salesFault.None? then Some(tables.sales) else None;
          var allSummary := if summaryFault.None? then Some(tables.summary) else None;
          records := ProcessRecords(listed, allSales, allSummary);
        }
      }
      loading := false;
      ApplyFilters();
    }

    /** `handleDelete`: once confirmed, write a DELETE audit entry (its failure
        is ignored), delete the day, which the store cascades to its sales,
        payment, summary and audit rows, then reload. `relisted` is the
        listing the reload gets. */
    method HandleDelete(recordId: string, recordDate: string, dayName: string, confirmed: bool,
                        tables: DailyTables, users: KeyValueStore?, answer: Option<string>,
                        auditFault: Option<string>, deleteFault: Option<string>,
                        relisted: seq<DailyRecord>, listFault: Option<string>,
                        salesFault: Option<string>, summaryFault: Option<string>)
      returns (alert: Option<string>)
      requires ListedNewestFirst(relisted, WithoutKey(tables.records, DailyRecordKey, recordId))
      modifies this, tables, users
      ensures !confirmed ==>
                && alert == None
                && tables.records == old(tables.records) && tables.sales == old(tables.sales)
                && tables.payments == old(tables.payments) && tables.summary == old(tables.summary)
                && tables.audit == old(tables.audit)
                && (users != null ==> users.entries == old(users.entries))
      ensures confirmed ==>
                && (users != null ==> users.entries == UserName.LookupName(old(users.entries), answer).entries)
                && tables.records == AfterDelete(old(tables.records), DailyRecordKey, recordId, deleteFault)
                && tables.sales == AfterDelete(old(tables.sales), SalesRowKey, recordId, deleteFault)
                && tables.payments == AfterDelete(old(tables.payments), PaymentRowKey, recordId, deleteFault)
                && tables.summary == AfterDelete(old(tables.summary), SummaryRowKey, recordId, deleteFault)
                && var actor := UserName.Actor(if users == null then None else Some(old(users.entries)), answer);
                   tables.audit
                   == AfterDelete(Audited(old(tables.audit), DeleteEntry(recordId, recordDate, dayName, actor),
                                          auditFault),
                                  AuditEntryKey, recordId, deleteFault)
      ensures !confirmed || deleteFault.Some? ==>
                && records == old(records) && filtered == old(filtered) && totals == old(totals)
                && loading == old(loading)
      ensures confirmed && deleteFault.Some? ==> alert == Some("❌ " + deleteFault.value)
      ensures confirmed && deleteFault.None? ==>
                && alert == Some(DeletedMessage)
                && records == (if listFault.None?
                               then ProcessRecords(relisted, if salesFault.None? then Some(tables.sales) else None,
                                                   if summaryFault.None? then Some(tables.summary) else None)
                               else old(records))
                && !loading && Consistent()
      ensures filterStart == old(filterStart) && filterEnd == old(filterEnd)
    {
      if !confirmed {
        return None;
      }
      var err := DeleteDay(recordId, recordDate, dayName, tables, users, answer, auditFault, deleteFault);
      if err.Some? {
        return Some("❌ " + err.value);
      }
      LoadRecords(tables, relisted, listFault, salesFault, summaryFault);
      alert := Some(DeletedMessage);
    }
  }
}
