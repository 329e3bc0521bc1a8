/** The petty-cash list page (app/caja-menor/page.tsx): every ledger row,
    newest first, narrowed by an inclusive date range and a category, with the
    total of what is shown, and in-place editing and deletion of rows. */
module PettyCashList {
  import opened Common
  import opened Text
  import opened Store
  import opened DateRange
  import opened LocalStorage
  import PettyCashEntry

  /** The category filter value that shows every category. */
  const AllCategories: string := "__all__"

  const MissingFieldsMessage: string := "Por favor completa todos los campos"
  const BadValueMessage: string := "El valor debe ser un número mayor a 0"

  // ---------------------------------------------------------------------------
  // filtering

  function RecordDate(r: PettyCashRecord): string
  {
    r.date
  }

  function InCategory(category: string): PettyCashRecord -> bool
  {
    (r: PettyCashRecord) => r.category == category
  }

  /** `getFilteredRecords`: the date bounds, then the category unless it is
      empty or "__all__". */
  function FilteredRecords(records: seq<PettyCashRecord>, start: string, end: string, category: string)
    : seq<PettyCashRecord>
  {
    var byDate := ByDateRange(records, RecordDate, start, end);
    if category != "" && category != AllCategories then Filter(byDate, InCategory(category)) else byDate
  }

  /** The rows the filters let through. */
  predicate Shows(r: PettyCashRecord, start: string, end: string, category: string)
  {
    InRange(r.date, start, end) && (category == "" || category == AllCategories || r.category == category)
  }

  /** The filters keep exactly the rows `Shows` accepts, in their order and
      with their multiplicity. */
  lemma FilteredRecordsSpec(records: seq<PettyCashRecord>, start: string, end: string, category: string,
                            shows: PettyCashRecord -> bool)
    requires forall r :: shows(r) == Shows(r, start, end, category)
    ensures FilteredRecords(records, start, end, category) == Filter(records, shows)
    ensures SubsequenceOf(FilteredRecords(records, start, end, category), records)
  {
    var inRange := (r: PettyCashRecord) => InRange(r.date, start, end);
    ByDateRangeIsFilter(records, RecordDate, start, end, inRange);
    if category != "" && category != AllCategories {
      FilterFilter(records, inRange, InCategory(category), shows);
    } else {
      FilterSame(records, inRange, shows);
    }
    FilterIsSubsequence(records, shows);
  }

  /** After `clearFilters` every row is shown. */
  lemma ClearedFiltersShowAll(records: seq<PettyCashRecord>)
    ensures FilteredRecords(records, "", "", AllCategories) == records
  {
  }

  /** `totalGeneral` is the ledger total less the rows the filters hide. */
  lemma TotalOfShownRows(records: seq<PettyCashRecord>, start: string, end: string, category: string,
                         shows: PettyCashRecord -> bool, hides: PettyCashRecord -> bool)
    requires forall r :: shows(r) == Shows(r, start, end, category)
    requires forall r :: hides(r) == !Shows(r, start, end, category)
    ensures PettyCashEntry.Total(FilteredRecords(records, start, end, category))
            == PettyCashEntry.Total(records) - PettyCashEntry.Total(Filter(records, hides))
  {
    FilteredRecordsSpec(records, start, end, category, shows);
    SumPartition(records, shows, hides, PettyCashValue);
  }

  // ---------------------------------------------------------------------------
  // newest first

  /** `a` may come before `b`: a later date, or the same date and a creation
      time no earlier. */
  predicate NoLessRecent(a: PettyCashRecord, b: PettyCashRecord)
  {
    StrLt(b.date, a.date) || (a.date == b.date && a.createdAt >= b.createdAt)
  }

  lemma NoLessRecentTotal(a: PettyCashRecord, b: PettyCashRecord)
    ensures NoLessRecent(a, b) || NoLessRecent(b, a)
  {
    StrLeTotal(a.date, b.date);
  }

  lemma NoLessRecentTransitive(a: PettyCashRecord, b: PettyCashRecord, c: PettyCashRecord)
    requires NoLessRecent(a, b) && NoLessRecent(b, c)
    ensures NoLessRecent(a, c)
  {
    if a.date != b.date && b.date != c.date {
      StrLeTransitive(c.date, b.date, a.date);
      if c.date == a.date {
        StrLeAntisymmetric(b.date, a.date);
      }
    }
  }

  predicate SortedByRecency(s: seq<PettyCashRecord>)
  {
    forall i, j :: 0 <= i < j < |s| ==> NoLessRecent(s[i], s[j])
  }

  /** Insert `x` before the first row it may precede. */
  function InsertByRecency(x: PettyCashRecord, s: seq<PettyCashRecord>): (r: seq<PettyCashRecord>)
    ensures multiset(r) == multiset(s) + multiset{x}
  {
    if |s| == 0 then [x]
    else if NoLessRecent(x, s[0]) then [x] + s
    else
      assert s == [s[0]] + s[1..];
      [s[0]] + InsertByRecency(x, s[1..])
  }

  /** The order of the list: by date, newest first, then by creation time,
      newest first. */
  function SortByRecency(s: seq<PettyCashRecord>): (r: seq<PettyCashRecord>)
    ensures multiset(r) == multiset(s)
  {
    if |s| == 0 then []
    else
      assert s == [s[0]] + s[1..];
      InsertByRecency(s[0], SortByRecency(s[1..]))
  }

  lemma {:induction false} InsertKeepsSorted(x: PettyCashRecord, s: seq<PettyCashRecord>)
    requires SortedByRecency(s)
    ensures SortedByRecency(InsertByRecency(x, s))
  {
    if |s| == 0 {
    } else if NoLessRecent(x, s[0]) {
      var r := [x] + s;
      forall i, j | 0 <= i < j < |r| ensures NoLessRecent(r[i], r[j]) {
        if i == 0 {
          if j > 1 {
            NoLessRecentTransitive(x, s[0], s[j - 1]);
          }
        } else {
          assert r[i] == s[i - 1] && r[j] == s[j - 1];
        }
      }
    } else {
      NoLessRecentTotal(x, s[0]);
      InsertKeepsSorted(x, s[1..]);
      var tail := InsertByRecency(x, s[1..]);
      var r := [s[0]] + tail;
      forall i, j | 0 <= i < j < |r| ensures NoLessRecent(r[i], r[j]) {
        if i == 0 {
          assert r[j] == tail[j - 1];
          assert r[j] in multiset(tail);
          if r[j] != x {
            assert r[j] in multiset(s[1..]);
            var k :| 0 <= k < |s[1..]| && s[1..][k] == r[j];
            assert s[k + 1] == r[j];
          }
        } else {
          assert r[i] == tail[i - 1] && r[j] == tail[j - 1];
        }
      }
    }
  }

  /** The sort leaves the rows newest first, and it is a permutation. */
  lemma {:induction false} SortByRecencySorted(s: seq<PettyCashRecord>)
    ensures SortedByRecency(SortByRecency(s))
    ensures multiset(SortByRecency(s)) == multiset(s)
  {
    if |s| > 0 {
      SortByRecencySorted(s[1..]);
      InsertKeepsSorted(s[0], SortByRecency(s[1..]));
    }
  }

  /** A list already newest first is left as it is. */
  lemma {:induction false} SortOfSorted(s: seq<PettyCashRecord>)
    requires SortedByRecency(s)
    ensures SortByRecency(s) == s
  {
    if |s| > 0 {
      assert SortedByRecency(s[1..]) by {
        forall i, j | 0 <= i < j < |s[1..]| ensures NoLessRecent(s[1..][i], s[1..][j]) {
          assert s[1..][i] == s[i + 1] && s[1..][j] == s[j + 1];
        }
      }
      SortOfSorted(s[1..]);
      if |s| > 1 {
        assert NoLessRecent(s[0], s[1]);
        assert s[1..][0] == s[1];
      }
      assert [s[0]] + s[1..] == s;
    }
  }

  /** Leaving rows out of a list newest first keeps it newest first. */
  lemma {:induction false} FilterKeepsSorted(s: seq<PettyCashRecord>, p: PettyCashRecord -> bool)
    requires SortedByRecency(s)
    ensures SortedByRecency(Filter(s, p))
  {
    if |s| > 0 {
      assert SortedByRecency(s[1..]) by {
        forall i, j | 0 <= i < j < |s[1..]| ensures NoLessRecent(s[1..][i], s[1..][j]) {
          assert s[1..][i] == s[i + 1] && s[1..][j] == s[j + 1];
        }
      }
      FilterKeepsSorted(s[1..], p);
      var rest := Filter(s[1..], p);
      if p(s[0]) {
        var r := [s[0]] + rest;
        forall i, j | 0 <= i < j < |r| ensures NoLessRecent(r[i], r[j]) {
          if i == 0 {
            assert r[j] == rest[j - 1];
            var k :| 0 <= k < |s[1..]| && s[1..][k] == r[j];
            assert s[k + 1] == r[j];
          } else {
            assert r[i] == rest[i - 1] && r[j] == rest[j - 1];
          }
        }
      }
    }
  }

  /** Every row of the ledger as the store lists them: by date, then by
      creation time, newest first. */
  predicate ListedNewestFirst(listed: seq<PettyCashRecord>, rows: seq<PettyCashRecord>)
  {
    multiset(listed) == multiset(rows) && SortedByRecency(listed)
  }

  /** The page sorts what it shows, but the rows come from the store already
      newest first, so the filtered rows keep the order they were loaded in. */
  lemma ShownOrderIsLoadedOrder(loaded: seq<PettyCashRecord>, start: string, end: string, category: string,
                                shows: PettyCashRecord -> bool)
    requires SortedByRecency(loaded)
    requires forall r :: shows(r) == Shows(r, start, end, category)
    ensures SortByRecency(FilteredRecords(loaded, start, end, category)) == FilteredRecords(loaded, start, end, category)
  {
    FilteredRecordsSpec(loaded, start, end, category, shows);
    FilterKeepsSorted(loaded, shows);
    SortOfSorted(Filter(loaded, shows));
  }

  /** Whatever the table holds, some listing of it is newest first. */
  lemma ListingExists(rows: seq<PettyCashRecord>)
    ensures ListedNewestFirst(SortByRecency(rows), rows)
  {
    SortByRecencySorted(rows);
  }

  // ---------------------------------------------------------------------------
  // editing

  /** The first complaint of this page's `handleSaveEdit`: the value is checked
      before the fields are. */
  function EditError(form: PettyCashEntry.EditForm): (e: Option<string>)
    ensures e.None? <==>
              && ParseFloat(form.value).Some? && ParseFloat(form.value).value > 0.0
              && form.date != "" && form.category != "" && form.name != ""
  {
    var parsed := ParseFloat(form.value);
    if parsed.None? || parsed.value <= 0.0 then Some(BadValueMessage)
    else if form.date == "" || form.category == "" || form.name == "" then Some(MissingFieldsMessage)
    else None
  }

  /** With an empty name and an unusable value, this page names the value while
      the entry form names the missing field. */
  lemma EditCheckOrder(date: string, category: string)
    requires date != "" && category != "" && category != PettyCashEntry.NewCategoryOption
    ensures EditError(PettyCashEntry.EditForm(date, category, "", Typed(None))) == Some(BadValueMessage)
    ensures PettyCashEntry.SubmitError(date, category, "", Typed(None), false, "")
            == Some(PettyCashEntry.MissingFieldsMessage)
  {
  }

  // ---------------------------------------------------------------------------
  // the page

  /** Everything the list page holds, in one value. */
  datatype PageState = PageState(
    records: seq<PettyCashRecord>, loading: bool, categories: seq<string>,
    editingId: Option<string>, editForm: PettyCashEntry.EditForm, error: string,
    filterStart: string, filterEnd: string, filterCategory: string)

  class ListPage {
    var records: seq<PettyCashRecord>
    var loading: bool
    var categories: seq<string>
    var editingId: Option<string>
    var editForm: PettyCashEntry.EditForm
    var error: string
    var filterStart: string
    var filterEnd: string
    var filterCategory: string

    constructor ()
      ensures records == [] && loading && categories == []
      ensures editingId == None && editForm == PettyCashEntry.EmptyEditForm && error == ""
      ensures filterStart == "" && filterEnd == "" && filterCategory == AllCategories
    {
      records, loading, categories := [], true, [];
      editingId, editForm, error := None, PettyCashEntry.EmptyEditForm, "";
      filterStart, filterEnd, filterCategory := "", "", AllCategories;
    }

    function State(): PageState
      reads this
    {
      PageState(records, loading, categories, editingId, editForm, error, filterStart, filterEnd, filterCategory)
    }

    /** The rows shown, newest first. */
    function Shown(): seq<PettyCashRecord>
      reads this
    {
      SortByRecency(FilteredRecords(records, filterStart, filterEnd, filterCategory))
    }

    /** `totalGeneral`: the total of the filtered rows. */
    function TotalGeneral(): real
      reads this
    {
      PettyCashEntry.Total(FilteredRecords(records, filterStart, filterEnd, filterCategory))
    }

    method LoadCategories(storage: CategoryStorage)
      modifies this, storage
      ensures old(storage.saved).Some? ==> categories == old(storage.saved).value && storage.saved == old(storage.saved)
      ensures old(storage.saved).None? ==>
                categories == PettyCashEntry.InitialCategories
                && storage.saved == Some(PettyCashEntry.InitialCategories)
      ensures State() == old(State()).(categories := categories)
    {
      categories := PettyCashEntry.ReadCategories(storage);
    }

    /** `loadRecords`: every row as the store lists them, `listed`; on an
        error the list stays as it was. Either way loading ends. */
    method LoadRecords(table: PettyCashTable, listed: seq<PettyCashRecord>, fault: Option<string>)
      requires ListedNewestFirst(listed, table.rows)
      modifies this
      ensures State() == old(State()).(records := if fault.None? then listed else old(records), loading := false)
      ensures fault.None? ==> multiset(records) == multiset(table.rows)
      ensures fault.None? ==> Shown() == FilteredRecords(records, filterStart, filterEnd, filterCategory)
    {
      if fault.None? {
        records := listed;
        var start, end, category := filterStart, filterEnd, filterCategory;
        ShownOrderIsLoadedOrder(records, start, end, category, r => Shows(r, start, end, category));
      }
      loading := false;
    }

    /** `handleDelete`: after the confirmation, delete the row and reload. */
    method HandleDelete(id: string, confirmed: bool, table: PettyCashTable, fault: Option<string>,
                        relisted: seq<PettyCashRecord>, reloadFault: Option<string>) returns (alert: Option<string>)
      requires ListedNewestFirst(relisted, WithoutId(table.rows, id))
      modifies this, table
      ensures !confirmed ==> alert == None && table.rows == old(table.rows) && State() == old(State())
      ensures confirmed && fault.Some? ==> alert == fault && table.rows == old(table.rows) && State() == old(State())
      ensures confirmed && fault.None? ==>
                && alert == None && table.rows == WithoutId(old(table.rows), id)
                && State() == old(State()).(records := if reloadFault.None? then relisted else old(records),
                                            loading := false)
    {
      if !confirmed {
        return None;
      }
      var err := table.Delete(id, fault);
      if err.Some? {
        return err;
      }
      LoadRecords(table, relisted, reloadFault);
      alert := None;
    }

    /** `handleEdit`: open a row in the edit form. */
    method HandleEdit(r: PettyCashRecord)
      modifies this
      ensures State()
              == old(State()).(editingId := Some(r.id),
                               editForm := PettyCashEntry.EditForm(r.date, r.category, r.name, NumberToText(r.value)),
                               error := "")
    {
      editingId := Some(r.id);
      editForm := PettyCashEntry.EditForm(r.date, r.category, r.name, NumberToText(r.value));
      error := "";
    }

    /** `handleSaveEdit`: check, update the row, reload and close the form. */
    method HandleSaveEdit(table: PettyCashTable, fault: Option<string>,
                          relisted: seq<PettyCashRecord>, reloadFault: Option<string>)
      requires editingId.Some? && editingId.value != "" && EditError(editForm).None? ==>
                 ListedNewestFirst(relisted, WithEdit(table.rows, editingId.value, editForm.date, editForm.category,
                                                      editForm.name, ParseFloat(editForm.value).value))
      modifies this, table
      ensures old(editingId).None? || old(editingId).value == "" ==>
                table.rows == old(table.rows) && State() == old(State())
      ensures old(editingId).Some? && old(editingId).value != "" ==>
                var id, form := old(editingId).value, old(editForm);
                var e := EditError(form);
                && (e.Some? ==>
                      table.rows == old(table.rows) && State() == old(State()).(error := e.value))
                && (e.None? && fault.Some? ==>
                      table.rows == old(table.rows) && State() == old(State()).(error := fault.value))
                && (e.None? && fault.None? ==>
                      && table.rows
                         == WithEdit(old(table.rows), id, form.date, form.category, form.name,
                                     ParseFloat(form.value).value)
                      && State()
                         == old(State()).(records := if reloadFault.None? then relisted else old(records),
                                          loading := false, editingId := None,
                                          editForm := PettyCashEntry.EmptyEditForm, error := ""))
    {
      if editingId.None? || editingId.value == "" {
        return;
      }
      var id := editingId.value;
      var parsed := ParseFloat(editForm.value);
      if parsed.None? || parsed.value <= 0.0 {
        error := BadValueMessage;
        return;
      }
      if editForm.date == "" || editForm.category == "" || editForm.name == "" {
        error := MissingFieldsMessage;
        return;
      }
      error := "";
      var err := table.Update(id, editForm.date, editForm.category, editForm.name, parsed.value, fault);
      if err.Some? {
        error := err.value;
        return;
      }
      LoadRecords(table, relisted, reloadFault);
      editingId := None;
      editForm := PettyCashEntry.EmptyEditForm;
    }

    /** `handleCancelEdit` */
    method HandleCancelEdit()
      modifies this
      ensures State() == old(State()).(editingId := None, editForm := PettyCashEntry.EmptyEditForm, error := "")
    {
      editingId, editForm, error := None, PettyCashEntry.EmptyEditForm, "";
    }

    /** `clearFilters`: afterwards every row is shown and counted. */
    method ClearFilters()
      modifies this
      ensures State() == old(State()).(filterStart := "", filterEnd := "", filterCategory := AllCategories)
      ensures TotalGeneral() == PettyCashEntry.Total(records)
    {
      filterStart, filterEnd, filterCategory := "", "", AllCategories;
      ClearedFiltersShowAll(records);
    }
  }
}
