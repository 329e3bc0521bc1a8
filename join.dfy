/** How the vault and report pages read a day's figures back out of the
    `sales_data` and `summary_data` rows: the first row of the record with the
    wanted category or label, its amount, and 0 when there is none. A table
    whose fetch failed comes back as `null` and reads as no rows. */
module RecordJoin {
  import opened Common
  import opened Store
  import Daily

  const ChargesCategory: string := "CARGOS Y COMISIONES"
  const CollectedCategory: string := "MONTO RECAUDADO"
  const TotalSalesLabel: string := "TOTAL VENTAS"
  const PettyCashLabel: string := "GASTOS MENORES"
  const BalanceLabel: string := "BALANCE"
  /** The label older days carry instead of "BALANCE". */
  const LegacyBalanceLabel: string := "CAJA FUERTE"
  const DepositLabel: string := "DEPOSITO"

  /** `s.record_id === id && s.category === category` */
  function SaleOf(id: string, category: string): SalesRow -> bool
  {
    (s: SalesRow) => s.recordId == id && s.category == category
  }

  /** `s.record_id === id && s.label === label` */
  function SummaryOf(id: string, wanted: string): SummaryRow -> bool
  {
    (s: SummaryRow) => s.recordId == id && s.labelName == wanted
  }

  /** A summary row of the record labelled "BALANCE" or "CAJA FUERTE". */
  function BalanceOf(id: string): SummaryRow -> bool
  {
    (s: SummaryRow) => s.recordId == id && (s.labelName == BalanceLabel || s.labelName == LegacyBalanceLabel)
  }

  /** `found?.amount || 0` for a sales row (a NaN amount is stored as null). */
  function SalesAmount(found: Option<SalesRow>): real
  {
    if found.Some? then OrZero(found.value.amount) else 0.0
  }

  /** `found?.amount || 0` for a summary row. */
  function SummaryAmount(found: Option<SummaryRow>): real
  {
    if found.Some? then found.value.amount else 0.0
  }

  /** `fetched?.find(p)?.amount || 0` over the sales rows. */
  function SalesLookup(fetched: Option<seq<SalesRow>>, p: SalesRow -> bool): real
  {
    if fetched.None? then 0.0 else SalesAmount(FindFirst(fetched.value, p))
  }

  /** `fetched?.find(p)?.amount || 0` over the summary rows. */
  function SummaryLookup(fetched: Option<seq<SummaryRow>>, p: SummaryRow -> bool): real
  {
    if fetched.None? then 0.0 else SummaryAmount(FindFirst(fetched.value, p))
  }

  /** A lookup reads the amount of the first matching row. */
  lemma SalesLookupFirstMatch(rows: seq<SalesRow>, p: SalesRow -> bool, i: nat)
    requires i < |rows| && p(rows[i])
    requires forall j :: 0 <= j < i ==> !p(rows[j])
    ensures SalesLookup(Some(rows), p) == OrZero(rows[i].amount)
  {
    FindFirstAt(rows, p, i);
  }

  lemma SummaryLookupFirstMatch(rows: seq<SummaryRow>, p: SummaryRow -> bool, i: nat)
    requires i < |rows| && p(rows[i])
    requires forall j :: 0 <= j < i ==> !p(rows[j])
    ensures SummaryLookup(Some(rows), p) == rows[i].amount
  {
    FindFirstAt(rows, p, i);
  }

  /** With no matching row, or no rows fetched, a lookup reads 0. */
  lemma LookupMissingIsZero(sales: Option<seq<SalesRow>>, p: SalesRow -> bool,
                            summary: Option<seq<SummaryRow>>, q: SummaryRow -> bool)
    requires sales.Some? ==> forall i :: 0 <= i < |sales.value| ==> !p(sales.value[i])
    requires summary.Some? ==> forall i :: 0 <= i < |summary.value| ==> !q(summary.value[i])
    ensures SalesLookup(sales, p) == 0.0 && SummaryLookup(summary, q) == 0.0
  {
  }

  /** The figures a saved day is read back as. */
  datatype DayFigures = DayFigures(
    charges: real, collected: real, totalSales: real, pettyCash: real, balance: real, deposit: real)

  function ReadBack(sales: Option<seq<SalesRow>>, summary: Option<seq<SummaryRow>>, id: string): DayFigures
  {
    DayFigures(
      SalesLookup(sales, SaleOf(id, ChargesCategory)),
      SalesLookup(sales, SaleOf(id, CollectedCategory)),
      SummaryLookup(summary, SummaryOf(id, TotalSalesLabel)),
      SummaryLookup(summary, SummaryOf(id, PettyCashLabel)),
      SummaryLookup(summary, BalanceOf(id)),
      SummaryLookup(summary, SummaryOf(id, DepositLabel)))
  }

  /** A lookup in a table grown by `added` reads the first match among the
      added rows when none of the earlier rows matches. */
  lemma SalesReadAfter(rows: seq<SalesRow>, added: seq<SalesRow>, p: SalesRow -> bool, i: nat)
    requires forall j :: 0 <= j < |rows| ==> !p(rows[j])
    requires i < |added| && p(added[i])
    requires forall j :: 0 <= j < i ==> !p(added[j])
    ensures SalesLookup(Some(rows + added), p) == OrZero(added[i].amount)
  {
    FindFirstSkip(rows, added, p);
    FindFirstAt(added, p, i);
  }

  lemma SummaryReadAfter(rows: seq<SummaryRow>, added: seq<SummaryRow>, p: SummaryRow -> bool, i: nat)
    requires forall j :: 0 <= j < |rows| ==> !p(rows[j])
    requires i < |added| && p(added[i])
    requires forall j :: 0 <= j < i ==> !p(added[j])
    ensures SummaryLookup(Some(rows + added), p) == added[i].amount
  {
    FindFirstSkip(rows, added, p);
    FindFirstAt(added, p, i);
  }

  /** The sales rows of a new record read back as its charges and its collected amount. */
  lemma SavedSalesReadBack(sales: seq<SalesRow>, id: string, f: Daily.DailyForm)
    requires forall i :: 0 <= i < |sales| ==> sales[i].recordId != id
    ensures var fetched := Some(sales + Daily.SalesRows(id, f));
            && SalesLookup(fetched, SaleOf(id, ChargesCategory)) == ParsedOrZero(f.charges)
            && SalesLookup(fetched, SaleOf(id, CollectedCategory)) == Daily.Collected(f)
  {
    var added := Daily.SalesRows(id, f);
    SalesReadAfter(sales, added, SaleOf(id, ChargesCategory), 1);
    SalesReadAfter(sales, added, SaleOf(id, CollectedCategory), 3);
  }

  /** The summary rows of a new record read back as its total and its petty cash. */
  lemma SavedTotalsReadBack(summary: seq<SummaryRow>, id: string, f: Daily.DailyForm, pettyCash: real)
    requires forall i :: 0 <= i < |summary| ==> summary[i].recordId != id
    ensures var fetched := Some(summary + Daily.SummaryRows(id, f, pettyCash));
            && SummaryLookup(fetched, SummaryOf(id, TotalSalesLabel)) == Daily.TotalByMethod(f)
            && SummaryLookup(fetched, SummaryOf(id, PettyCashLabel)) == pettyCash
  {
    var added := Daily.SummaryRows(id, f, pettyCash);
    SummaryReadAfter(summary, added, SummaryOf(id, TotalSalesLabel), 0);
    SummaryReadAfter(summary, added, SummaryOf(id, PettyCashLabel), 1);
  }

  /** The summary rows of a new record read back as its balance and its deposit. */
  lemma SavedBalanceReadBack(summary: seq<SummaryRow>, id: string, f: Daily.DailyForm, pettyCash: real)
    requires forall i :: 0 <= i < |summary| ==> summary[i].recordId != id
    ensures var fetched := Some(summary + Daily.SummaryRows(id, f, pettyCash));
            && SummaryLookup(fetched, BalanceOf(id)) == Daily.Balance(f, pettyCash)
            && SummaryLookup(fetched, SummaryOf(id, DepositLabel)) == ParsedOrZero(f.deposit)
  {
    var added := Daily.SummaryRows(id, f, pettyCash);
    SummaryReadAfter(summary, added, BalanceOf(id), 2);
    SummaryReadAfter(summary, added, SummaryOf(id, DepositLabel), 3);
  }

  /** Save then view: once the daily page has appended the rows of a new record
      to tables holding no row of that record, the views read back exactly the
      figures the daily page computed from its form. */
  lemma SavedDayReadsBack(sales: seq<SalesRow>, summary: seq<SummaryRow>, id: string,
                          f: Daily.DailyForm, pettyCash: real)
    requires forall i :: 0 <= i < |sales| ==> sales[i].recordId != id
    requires forall i :: 0 <= i < |summary| ==> summary[i].recordId != id
    ensures ReadBack(Some(sales + Daily.SalesRows(id, f)), Some(summary + Daily.SummaryRows(id, f, pettyCash)), id)
            == DayFigures(ParsedOrZero(f.charges), Daily.Collected(f), Daily.TotalByMethod(f), pettyCash,
                          Daily.Balance(f, pettyCash), ParsedOrZero(f.deposit))
  {
    SavedSalesReadBack(sales, id, f);
    SavedTotalsReadBack(summary, id, f, pettyCash);
    SavedBalanceReadBack(summary, id, f, pettyCash);
  }
}
