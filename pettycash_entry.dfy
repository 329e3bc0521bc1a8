/** The petty-cash entry page (app/caja-menor/new/page.tsx): the category list
    kept in the browser, the entry form, and the records entered during the
    session, which can be edited or deleted again before leaving the page. */
module PettyCashEntry {
  import opened Common
  import opened Text
  import opened Store
  import opened LocalStorage

  /** The select option that opens the new-category box instead of choosing a category. */
  const NewCategoryOption: string := "__new__"
  /** The category list the page starts with when none is saved. */
  const InitialCategories: seq<string> := ["Payroll"]

  const MissingFieldsMessage: string := "Por favor completa todos los campos"
  const PendingCategoryMessage: string := "Por favor completa el nombre de la nueva categoría o cancela"
  const BadValueMessage: string := "El valor debe ser un número mayor a 0"

  // ---------------------------------------------------------------------------
  // categories

  /** The category list as both petty-cash pages load it: the saved list, or
      ["Payroll"] when none is saved, which is then saved. */
  method ReadCategories(storage: CategoryStorage) returns (categories: seq<string>)
    modifies storage
    ensures old(storage.saved).Some? ==> categories == old(storage.saved).value && storage.saved == old(storage.saved)
    ensures old(storage.saved).None? ==> categories == InitialCategories && storage.saved == Some(InitialCategories)
  {
    if storage.saved.Some? {
      categories := storage.saved.value;
    } else {
      categories := InitialCategories;
      storage.Save(InitialCategories);
    }
  }

  /** The category `addNewCategory` adds for the typed text: the trimmed text,
      unless it is blank or already listed. */
  function AddedCategory(categories: seq<string>, typed: string): (c: Option<string>)
    ensures c.Some? ==> c.value == Trim(typed) && c.value != "" && c.value !in categories
    ensures c.None? ==> IsBlank(typed) || Trim(typed) in categories
  {
    if !IsBlank(typed) && Trim(typed) !in categories then Some(Trim(typed)) else None
  }

  predicate NoDuplicates(s: seq<string>)
  {
    forall i, j :: 0 <= i < j < |s| ==> s[i] != s[j]
  }

  /** Adding categories one typed text at a time keeps the list free of
      duplicates and of blank names, and typing the same text again adds nothing. */
  lemma AddedCategoryKeepsListClean(categories: seq<string>, typed: string)
    requires NoDuplicates(categories) && forall i :: 0 <= i < |categories| ==> categories[i] != ""
    ensures var added := AddedCategory(categories, typed);
            var next := if added.Some? then categories + [added.value] else categories;
            && NoDuplicates(next)
            && (forall i :: 0 <= i < |next| ==> next[i] != "")
            && AddedCategory(next, typed).None?
  {
  }

  // ---------------------------------------------------------------------------
  // the entry form

  /** The first complaint of `handleSubmit` about the form, if any: a missing
      field (or the "new category" option still selected), a new-category box
      left blank, or a value that is not a number above 0. */
  function SubmitError(date: string, category: string, name: string, value: NumberText,
                       showNewCategory: bool, newCategory: string): (e: Option<string>)
    ensures e.None? <==>
              && date != "" && category != "" && category != NewCategoryOption && name != "" && !value.Empty?
              && (showNewCategory ==> !IsBlank(newCategory))
              && ParseFloat(value).Some? && ParseFloat(value).value > 0.0
  {
    if date == "" || category == "" || category == NewCategoryOption || name == "" || value.Empty? then
      Some(MissingFieldsMessage)
    else if showNewCategory && IsBlank(newCategory) then Some(PendingCategoryMessage)
    else if ParseFloat(value).None? || ParseFloat(value).value <= 0.0 then Some(BadValueMessage)
    else None
  }

  /** The emptiness checks come before the value check: a form with a missing
      name is refused for that even when its value is also unusable. */
  lemma SubmitErrorOrder(date: string, category: string, value: NumberText, showNewCategory: bool,
                         newCategory: string)
    ensures SubmitError(date, category, "", value, showNewCategory, newCategory) == Some(MissingFieldsMessage)
    ensures date != "" && category != "" && category != NewCategoryOption && !value.Empty?
            && ParseFloat(value).None? && !showNewCategory ==>
              SubmitError(date, category, "x", value, showNewCategory, newCategory) == Some(BadValueMessage)
  {
  }

  /** Only emptiness is checked, before trimming: a name of spaces passes and
      is stored as the empty name. */
  lemma BlankNamePasses(date: string, category: string)
    requires date != "" && category != "" && category != NewCategoryOption
    ensures SubmitError(date, category, " ", NumberToText(5.0), false, "") == None
    ensures Trim(" ") == ""
  {
    assert IsSpace(' ');
  }

  /** The row `handleSubmit` inserts: date, category and name trimmed, the
      parsed value, and the id and creation time the store gives it. */
  function EntryRow(id: string, date: string, category: string, name: string, value: NumberText,
                    createdAt: int): PettyCashRecord
    requires ParseFloat(value).Some?
  {
    PettyCashRecord(id, Trim(date), Trim(category), Trim(name), ParseFloat(value).value, createdAt)
  }

  /** The empty edit form. */
  datatype EditForm = EditForm(date: string, category: string, name: string, value: NumberText)

  const EmptyEditForm: EditForm := EditForm("", "", "", Empty)

  // ---------------------------------------------------------------------------
  // session totals

  /** `sessionRecords.reduce((sum, r) => sum + r.value, 0)` */
  function Total(records: seq<PettyCashRecord>): real
  {
    Sum(records, PettyCashValue)
  }

  function HasId(id: string): PettyCashRecord -> bool
  {
    (r: PettyCashRecord) => r.id == id
  }

  function LacksId(id: string): PettyCashRecord -> bool
  {
    (r: PettyCashRecord) => r.id != id
  }

  /** A new record adds its value to the session total. */
  lemma {:induction false} TotalAfterAppend(records: seq<PettyCashRecord>, r: PettyCashRecord)
    ensures Total(records + [r]) == Total(records) + r.value
  {
    SumAppend(records, [r], PettyCashValue);
    assert [r][..0] == [];
  }

  /** Deleting by id takes the values of the records with that id off the total. */
  lemma {:induction false} TotalAfterDelete(records: seq<PettyCashRecord>, id: string)
    ensures Total(WithoutId(records, id)) == Total(records) - Total(Filter(records, HasId(id)))
  {
    FilterSame(records, (x: PettyCashRecord) => x.id != id, LacksId(id));
    SumPartition(records, HasId(id), LacksId(id), PettyCashValue);
  }

  /** Editing the one record with a given id moves the total by the change of its value. */
  lemma {:induction false} TotalAfterEdit(records: seq<PettyCashRecord>, k: nat, date: string, category: string,
                                         name: string, value: real)
    requires k < |records|
    requires forall i :: 0 <= i < |records| && i != k ==> records[i].id != records[k].id
    ensures Total(WithEdit(records, records[k].id, date, category, name, value))
            == Total(records) - records[k].value + value
    decreases |records|
  {
    var id := records[k].id;
    var edited := WithEdit(records, id, date, category, name, value);
    var n := |records| - 1;
    assert edited[..n] == WithEdit(records[..n], id, date, category, name, value);
    if k == n {
      assert forall i :: 0 <= i < n ==> edited[..n][i] == records[..n][i];
      assert edited[..n] == records[..n];
    } else {
      TotalAfterEdit(records[..n], k, date, category, name, value);
      assert edited[n] == records[n];
    }
  }

  // ---------------------------------------------------------------------------
  // the page

  /** Everything the entry page holds, in one value. */
  datatype PageState = PageState(
    saving: bool, error: string, success: bool, sessionRecords: seq<PettyCashRecord>,
    editingId: Option<string>, editForm: EditForm,
    date: string, category: string, name: string, valueText: NumberText,
    newCategory: string, showNewCategory: bool, categories: seq<string>)

  class NewEntryPage {
    var saving: bool
    var error: string
    var success: bool
    var sessionRecords: seq<PettyCashRecord>
    var editingId: Option<string>
    var editForm: EditForm
    var date: string
    var category: string
    var name: string
    var valueText: NumberText
    var newCategory: string
    var showNewCategory: bool
    var categories: seq<string>

    constructor (today: string)
      ensures date == today && category == "" && name == "" && valueText == Empty
      ensures newCategory == "" && !showNewCategory && categories == []
      ensures sessionRecords == [] && editingId == None && editForm == EmptyEditForm
      ensures !saving && error == "" && !success
    {
      saving, error, success := false, "", false;
      sessionRecords, editingId, editForm := [], None, EmptyEditForm;
      date, category, name, valueText := today, "", "", Empty;
      newCategory, showNewCategory, categories := "", false, [];
    }

    function State(): PageState
      reads this
    {
      PageState(saving, error, success, sessionRecords, editingId, editForm,
                date, category, name, valueText, newCategory, showNewCategory, categories)
    }

    /** The total of the records entered in this session. */
    function SessionTotal(): real
      reads this
    {
      Total(sessionRecords)
    }

    /** The category list is read from the browser on load. */
    method LoadCategories(storage: CategoryStorage)
      modifies this, storage
      ensures old(storage.saved).Some? ==> categories == old(storage.saved).value && storage.saved == old(storage.saved)
      ensures old(storage.saved).None? ==> categories == InitialCategories && storage.saved == Some(InitialCategories)
      ensures State() == old(State()).(categories := categories)
    {
      categories := ReadCategories(storage);
    }

    /** The category select: the "new category" option opens the box, any other choice selects it. */
    method SelectCategory(choice: string)
      modifies this
      ensures choice == NewCategoryOption ==> State() == old(State()).(showNewCategory := true)
      ensures choice != NewCategoryOption ==> State() == old(State()).(category := choice)
    {
      if choice == NewCategoryOption {
        showNewCategory := true;
      } else {
        category := choice;
      }
    }

    /** The ✕ button of the new-category box. */
    method CancelNewCategory()
      modifies this
      ensures State() == old(State()).(showNewCategory := false, newCategory := "", category := "")
    {
      showNewCategory, newCategory, category := false, "", "";
    }

    /** `addNewCategory`: a new non-blank name is appended trimmed, saved, and selected. */
    method AddNewCategory(storage: CategoryStorage)
      modifies this, storage
      ensures var added := AddedCategory(old(categories), old(newCategory));
              && (added.Some? ==>
                    && storage.saved == Some(categories)
                    && State() == old(State()).(categories := old(categories) + [added.value],
                                                category := added.value, newCategory := "",
                                                showNewCategory := false))
              && (added.None? ==> storage.saved == old(storage.saved) && State() == old(State()))
    {
      var typed := Trim(newCategory);
      if typed != "" && typed !in categories {
        categories := categories + [typed];
        storage.Save(categories);
        category := typed;
        newCategory := "";
        showNewCategory := false;
      }
    }

    /** The checks at the start of `handleSubmit`, in the source's order. */
    method CheckForm() returns (e: Option<string>)
      ensures e == SubmitError(date, category, name, valueText, showNewCategory, newCategory)
    {
      if date == "" || category == "" || category == NewCategoryOption || name == "" || valueText.Empty? {
        return Some(MissingFieldsMessage);
      }
      if showNewCategory && Trim(newCategory) == "" {
        return Some(PendingCategoryMessage);
      }
      var parsed := ParseFloat(valueText);
      if parsed.None? || parsed.value <= 0.0 {
        return Some(BadValueMessage);
      }
      return None;
    }

    /** The `try` block of `handleSubmit`: insert `row`; on success append it to
        the session list and clear name and value. */
    method SaveEntry(table: PettyCashTable, row: PettyCashRecord, fault: Option<string>)
      modifies this, table
      ensures fault.Some? ==>
                && table.rows == old(table.rows)
                && State() == old(State()).(error := fault.value, saving := false)
      ensures fault.None? ==>
                && table.rows == old(table.rows) + [row]
                && State()
                   == old(State()).(sessionRecords := old(sessionRecords) + [row], name := "", valueText := Empty,
                                    error := "", saving := false, success := true)
    {
      // `saving` is true while the insert is awaited and false again after it.
      var inserted := table.Insert(row.id, row.date, row.category, row.name, row.value, row.createdAt, fault);
      if inserted.Failure? {
        error, saving := inserted.message, false;
      } else {
        sessionRecords, name, valueText := sessionRecords + [inserted.value], "", Empty;
        error, saving, success := "", false, true;
      }
    }

    /** `handleSubmit`: validate, insert the trimmed fields, append the stored
        row to the session list and clear name and value (date and category stay). */
    method HandleSubmit(table: PettyCashTable, newId: string, createdAt: int, fault: Option<string>)
      modifies this, table
      ensures SubmitError(old(date), old(category), old(name), old(valueText), old(showNewCategory),
                          old(newCategory)).Some? ==>
                && table.rows == old(table.rows)
                && State()
                   == old(State()).(error := SubmitError(old(date), old(category), old(name), old(valueText),
                                                         old(showNewCategory), old(newCategory)).value)
      ensures SubmitError(old(date), old(category), old(name), old(valueText), old(showNewCategory),
                          old(newCategory)).None? && fault.Some? ==>
                && table.rows == old(table.rows)
                && State() == old(State()).(error := fault.value, saving := false)
      ensures SubmitError(old(date), old(category), old(name), old(valueText), old(showNewCategory),
                          old(newCategory)).None? && fault.None? ==>
                var row := EntryRow(newId, old(date), old(category), old(name), old(valueText), createdAt);
                && table.rows == old(table.rows) + [row]
                && row.value > 0.0
                && State()
                   == old(State()).(sessionRecords := old(sessionRecords) + [row], name := "", valueText := Empty,
                                    error := "", saving := false, success := true)
    {
      var e := CheckForm();
      if e.Some? {
        error := e.value;
        return;
      }
      var row := EntryRow(newId, date, category, name, valueText, createdAt);
      SaveEntry(table, row, fault);
    }

    /** `handleDeleteSessionRecord`: after the confirmation, delete from the
        store and then from the session list; a store error is only alerted. */
    method HandleDeleteSessionRecord(id: string, confirmed: bool, table: PettyCashTable, fault: Option<string>)
      returns (alert: Option<string>)
      modifies this, table
      ensures !confirmed ==> alert == None && table.rows == old(table.rows) && State() == old(State())
      ensures confirmed && fault.Some? ==>
                alert == fault && table.rows == old(table.rows) && State() == old(State())
      ensures confirmed && fault.None? ==>
                && alert == None
                && table.rows == WithoutId(old(table.rows), id)
                && State() == old(State()).(sessionRecords := WithoutId(old(sessionRecords), id))
    {
      if !confirmed {
        return None;
      }
      var err := table.Delete(id, fault);
      if err.Some? {
        return err;
      }
      sessionRecords := WithoutId(sessionRecords, id);
      alert := None;
    }

    /** `handleEditSessionRecord`: load a record into the edit form. */
    method HandleEditSessionRecord(r: PettyCashRecord)
      modifies this
      ensures State()
              == old(State()).(editingId := Some(r.id),
                               editForm := EditForm(r.date, r.category, r.name, NumberToText(r.value)))
      ensures ParseFloat(editForm.value) == Some(r.value)
    {
      editingId := Some(r.id);
      editForm := EditForm(r.date, r.category, r.name, NumberToText(r.value));
    }

    /** `handleSaveEdit`: the value must be a number above 0; the fields are
        stored as typed, then the session list is updated the same way. */
    method HandleSaveEdit(table: PettyCashTable, fault: Option<string>)
      modifies this, table
      ensures old(editingId).None? || old(editingId).value == "" ==>
                table.rows == old(table.rows) && State() == old(State())
      ensures old(editingId).Some? && old(editingId).value != "" ==>
                var id, form := old(editingId).value, old(editForm);
                var parsed := ParseFloat(form.value);
                && (parsed.None? || parsed.value <= 0.0 ==>
                      table.rows == old(table.rows) && State() == old(State()).(error := BadValueMessage))
                && (parsed.Some? && parsed.value > 0.0 && fault.Some? ==>
                      table.rows == old(table.rows) && State() == old(State()).(error := fault.value))
                && (parsed.Some? && parsed.value > 0.0 && fault.None? ==>
                      && table.rows == WithEdit(old(table.rows), id, form.date, form.category, form.name, parsed.value)
                      && State()
                         == old(State()).(sessionRecords := WithEdit(old(sessionRecords), id, form.date, form.category,
                                                                     form.name, parsed.value),
                                          editingId := None, editForm := EmptyEditForm, error := ""))
    {
      if editingId.None? || editingId.value == "" {
        return;
      }
      var id := editingId.value;
      var parsed := ParseFloat(editForm.value);
      if parsed.None? || parsed.value <= 0.0 {
        error := BadValueMessage;
        return;
      }
      var err := table.Update(id, editForm.date, editForm.category, editForm.name, parsed.value, fault);
      if err.Some? {
        error := err.value;
        return;
      }
      sessionRecords := WithEdit(sessionRecords, id, editForm.date, editForm.category, editForm.name, parsed.value);
      editingId := None;
      editForm := EmptyEditForm;
      error := "";
    }

    /** `handleCancelEdit` */
    method HandleCancelEdit()
      modifies this
      ensures State() == old(State()).(editingId := None, editForm := EmptyEditForm, error := "")
    {
      editingId := None;
      editForm := EmptyEditForm;
      error := "";
    }
  }
}
