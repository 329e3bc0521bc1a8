/** The employees page (app/empleados/page.tsx): the staff list, their cash and
    transfer payments, an inclusive date and employee filter, each employee's
    totals over the filtered payments, and the add and delete handlers. */
module Employees {
  import opened Common
  import opened Text
  import opened Store
  import opened DateRange

  /** The employee filter value that shows everyone. */
  const AllEmployees: string := "__all__"

  const MissingNameMessage: string := "Por favor ingresa el nombre del empleado"
  const MissingFieldsMessage: string := "Por favor completa todos los campos"
  const BadAmountMessage: string := "El monto debe ser un número mayor a 0"

  // ---------------------------------------------------------------------------
  // filtering

  function PaymentDate(p: EmployeePayment): string
  {
    p.date
  }

  function OfEmployee(employeeId: string): EmployeePayment -> bool
  {
    (p: EmployeePayment) => p.employeeId == employeeId
  }

  /** `getFilteredPayments`: the date bounds, then the employee unless the
      filter is empty or "__all__". */
  function FilteredPayments(payments: seq<EmployeePayment>, start: string, end: string, employeeId: string)
    : seq<EmployeePayment>
  {
    var byDate := ByDateRange(payments, PaymentDate, start, end);
    if employeeId != "" && employeeId != AllEmployees then Filter(byDate, OfEmployee(employeeId)) else byDate
  }

  predicate Shows(p: EmployeePayment, start: string, end: string, employeeId: string)
  {
    InRange(p.date, start, end) && (employeeId == "" || employeeId == AllEmployees || p.employeeId == employeeId)
  }

  /** The filters keep exactly the payments `Shows` accepts, in their order. */
  lemma FilteredPaymentsSpec(payments: seq<EmployeePayment>, start: string, end: string, employeeId: string,
                             shows: EmployeePayment -> bool)
    requires forall p :: shows(p) == Shows(p, start, end, employeeId)
    ensures FilteredPayments(payments, start, end, employeeId) == Filter(payments, shows)
    ensures SubsequenceOf(FilteredPayments(payments, start, end, employeeId), payments)
  {
    var inRange := (p: EmployeePayment) => InRange(p.date, start, end);
    ByDateRangeIsFilter(payments, PaymentDate, start, end, inRange);
    if employeeId != "" && employeeId != AllEmployees {
      FilterFilter(payments, inRange, OfEmployee(employeeId), shows);
    } else {
      FilterSame(payments, inRange, shows);
    }
    FilterIsSubsequence(payments, shows);
  }

  // ---------------------------------------------------------------------------
  // totals per employee

  datatype EmployeeTotals = EmployeeTotals(cash: real, transfer: real, total: real)

  function PaidIn(t: PaymentType): EmployeePayment -> bool
  {
    (p: EmployeePayment) => p.paymentType == t
  }

  function Amount(p: EmployeePayment): real
  {
    p.amount
  }

  /** `getEmployeeTotals(employeeId)` over the filtered payments. */
  function TotalsOf(filtered: seq<EmployeePayment>, employeeId: string): EmployeeTotals
  {
    var mine := Filter(filtered, OfEmployee(employeeId));
    var cash := Sum(Filter(mine, PaidIn(Cash)), Amount);
    var transfer := Sum(Filter(mine, PaidIn(Transfer)), Amount);
    EmployeeTotals(cash, transfer, cash + transfer)
  }

  /** A payment is cash or transfer, so an employee's total is the sum of all
      their filtered payments. */
  lemma TotalIsAllPayments(filtered: seq<EmployeePayment>, employeeId: string)
    ensures TotalsOf(filtered, employeeId).total == Sum(Filter(filtered, OfEmployee(employeeId)), Amount)
  {
    SumPartition(Filter(filtered, OfEmployee(employeeId)), PaidIn(Cash), PaidIn(Transfer), Amount);
  }

  /** With one employee selected, that employee's card totals every payment the
      filters let through. */
  lemma SelectedCardCoversFiltered(payments: seq<EmployeePayment>, start: string, end: string, employeeId: string)
    requires employeeId != "" && employeeId != AllEmployees
    ensures var filtered := FilteredPayments(payments, start, end, employeeId);
            TotalsOf(filtered, employeeId).total == Sum(filtered, Amount)
  {
    var byDate := ByDateRange(payments, PaymentDate, start, end);
    FilterIdempotent(byDate, OfEmployee(employeeId));
    TotalIsAllPayments(FilteredPayments(payments, start, end, employeeId), employeeId);
  }

  /** An employee's card is hidden when one specific employee is selected and
      it is someone else. */
  predicate CardHidden(filterEmployeeId: string, employeeId: string)
  {
    filterEmployeeId != AllEmployees && filterEmployeeId != employeeId
  }

  /** Under "__all__" every card shows; under one employee's id only that
      employee's card does, and the hidden cards have no filtered payments. */
  lemma CardVisibility(payments: seq<EmployeePayment>, start: string, end: string, filterEmployeeId: string,
                       employeeId: string)
    ensures filterEmployeeId == AllEmployees ==> !CardHidden(filterEmployeeId, employeeId)
    ensures filterEmployeeId != AllEmployees ==> (CardHidden(filterEmployeeId, employeeId) <==> filterEmployeeId != employeeId)
    ensures filterEmployeeId != "" && CardHidden(filterEmployeeId, employeeId) ==>
              Filter(FilteredPayments(payments, start, end, filterEmployeeId), OfEmployee(employeeId)) == []
  {
    if filterEmployeeId != "" && CardHidden(filterEmployeeId, employeeId) {
      var filtered := FilteredPayments(payments, start, end, filterEmployeeId);
      FilterNone(filtered, OfEmployee(employeeId));
    }
  }

  // ---------------------------------------------------------------------------
  // validation

  /** The first complaint of `handleAddPayment`, before any insert. */
  function PaymentError(employeeId: string, date: string, amount: NumberText): (e: Option<string>)
    ensures e.None? <==>
              && employeeId != "" && date != "" && !amount.Empty?
              && ParseFloat(amount).Some? && ParseFloat(amount).value > 0.0
    ensures e == Some(MissingFieldsMessage) <==> employeeId == "" || date == "" || amount.Empty?
  {
    if employeeId == "" || date == "" || amount.Empty? then Some(MissingFieldsMessage)
    else if ParseFloat(amount).None? || ParseFloat(amount).value <= 0.0 then Some(BadAmountMessage)
    else None
  }

  /** The complaint of `handleAddEmployee`: a name of blanks only. */
  function EmployeeNameError(name: string): (e: Option<string>)
    ensures e.None? <==> exists i :: 0 <= i < |name| && !IsSpace(name[i])
  {
    BlankIffAllSpace(name);
    if IsBlank(name) then Some(MissingNameMessage) else None
  }

  // ---------------------------------------------------------------------------
  // the page

  /** The staff as the store lists them: exactly the table's rows. The store
      orders them by name in the database's collation, which the model leaves
      open, so any order of the rows is a possible listing. */
  predicate ListedByName(listed: seq<Employee>, table: seq<Employee>)
  {
    multiset(listed) == multiset(table)
  }

  /** The payments as the store lists them: by date, then creation time, newest first. */
  predicate ListedNewestFirst(listed: seq<EmployeePayment>, table: seq<EmployeePayment>)
  {
    && multiset(listed) == multiset(table)
    && forall i, j :: 0 <= i < j < |listed| ==>
         StrLt(listed[j].date, listed[i].date)
         || (listed[i].date == listed[j].date && listed[j].createdAt <= listed[i].createdAt)
  }

  /** The error `loadData` leaves: the first failing listing's message, else the one before. */
  function LoadError(employeesFault: Option<string>, paymentsFault: Option<string>, before: string): string
  {
    if employeesFault.Some? then employeesFault.value
    else if paymentsFault.Some? then paymentsFault.value
    else before
  }

  /** Everything the employees page holds, in one value. */
  datatype PageState = PageState(
    employees: seq<Employee>, payments: seq<EmployeePayment>,
    loading: bool, saving: bool, error: string, success: bool,
    newEmployeeName: string, selectedEmployeeId: string, paymentDate: string,
    paymentType: PaymentType, paymentAmount: NumberText,
    filterStart: string, filterEnd: string, filterEmployeeId: string)

  /** The page after `loadData` from state `s`: the staff, then the payments,
      each kept when its listing (or the one before) failed; the error of the
      first failing listing; no longer loading. */
  function AfterLoad(s: PageState, employeesListed: seq<Employee>, paymentsListed: seq<EmployeePayment>,
                     employeesFault: Option<string>, paymentsFault: Option<string>): PageState
  {
    s.(employees := if employeesFault.None? then employeesListed else s.employees,
       payments := if employeesFault.None? && paymentsFault.None? then paymentsListed else s.payments,
       error := LoadError(employeesFault, paymentsFault, s.error),
       loading := false)
  }

  class EmployeesPage {
    var employees: seq<Employee>
    var payments: seq<EmployeePayment>
    var loading: bool
    var saving: bool
    var error: string
    var success: bool
    var newEmployeeName: string
    var selectedEmployeeId: string
    var paymentDate: string
    var paymentType: PaymentType
    var paymentAmount: NumberText
    var filterStart: string
    var filterEnd: string
    var filterEmployeeId: string

    /** The page as it opens; `today` is the local date `YYYY-MM-DD`. */
    constructor (today: string)
      ensures employees == [] && payments == [] && loading && !saving && error == "" && !success
      ensures newEmployeeName == "" && selectedEmployeeId == "" && paymentDate == today
      ensures paymentType == Cash && paymentAmount == Empty
      ensures filterStart == "" && filterEnd == "" && filterEmployeeId == AllEmployees
    {
      employees, payments, loading, saving, error, success := [], [], true, false, "", false;
      newEmployeeName, selectedEmployeeId, paymentDate := "", "", today;
      paymentType, paymentAmount := Cash, Empty;
      filterStart, filterEnd, filterEmployeeId := "", "", AllEmployees;
    }

    function State(): PageState
      reads this
    {
      PageState(employees, payments, loading, saving, error, success,
                newEmployeeName, selectedEmployeeId, paymentDate, paymentType, paymentAmount,
                filterStart, filterEnd, filterEmployeeId)
    }

    function Filtered(): seq<EmployeePayment>
      reads this
    {
      FilteredPayments(payments, filterStart, filterEnd, filterEmployeeId)
    }

    function CardTotals(employeeId: string): EmployeeTotals
      reads this
    {
      TotalsOf(Filtered(), employeeId)
    }

    /** `loadData`: the staff, then the payments; a failed listing stops there
        and shows its message. */
    method LoadData(tables: EmployeeTables, employeesListed: seq<Employee>, paymentsListed: seq<EmployeePayment>,
                    employeesFault: Option<string>, paymentsFault: Option<string>)
      requires ListedByName(employeesListed, tables.employees)
      requires ListedNewestFirst(paymentsListed, tables.payments)
      modifies this
      ensures State() == AfterLoad(old(State()), employeesListed, paymentsListed, employeesFault, paymentsFault)
    {
      if employeesFault.Some? {
        error := employeesFault.value;
      } else {
        employees := employeesListed;
        if paymentsFault.Some? {
          error := paymentsFault.value;
        } else {
          payments := paymentsListed;
        }
      }
      loading := false;
    }

    /** The `try` block of `handleAddEmployee`: store the trimmed name; on
        success clear the box, flag the success and reload. */
    method SaveEmployee(tables: EmployeeTables, newId: string, createdAt: int, fault: Option<string>,
                        employeesListed: seq<Employee>, paymentsListed: seq<EmployeePayment>,
                        employeesFault: Option<string>, paymentsFault: Option<string>)
      requires ListedByName(employeesListed, tables.employees + [Employee(newId, Trim(newEmployeeName), createdAt)])
      requires ListedNewestFirst(paymentsListed, tables.payments)
      modifies this, tables
      ensures tables.payments == old(tables.payments)
      ensures fault.Some? ==>
                && tables.employees == old(tables.employees)
                && State() == old(State()).(error := fault.value, saving := false)
      ensures fault.None? ==>
                && tables.employees == old(tables.employees) + [Employee(newId, Trim(old(newEmployeeName)), createdAt)]
                && State() == AfterLoad(old(State()).(error := "", newEmployeeName := "", success := true),
                                        employeesListed, paymentsListed, employeesFault, paymentsFault)
                                .(saving := false)
    {
      // `saving` is true only while the store is busy; the page keeps its final value.
      var err := tables.InsertEmployee(newId, Trim(newEmployeeName), createdAt, fault);
      if err.Some? {
        error, saving := err.value, false;
        return;
      }
      error, newEmployeeName, success := "", "", true;
      assert State() == old(State()).(error := "", newEmployeeName := "", success := true);
      LoadData(tables, employeesListed, paymentsListed, employeesFault, paymentsFault);
      saving := false;
    }

    /** `handleAddEmployee`: a non-blank name is stored trimmed, the box is
        cleared and the lists reloaded. */
    method HandleAddEmployee(tables: EmployeeTables, newId: string, createdAt: int, fault: Option<string>,
                             employeesListed: seq<Employee>, paymentsListed: seq<EmployeePayment>,
                             employeesFault: Option<string>, paymentsFault: Option<string>)
      requires ListedByName(employeesListed, tables.employees + [Employee(newId, Trim(newEmployeeName), createdAt)])
      requires ListedNewestFirst(paymentsListed, tables.payments)
      modifies this, tables
      ensures tables.payments == old(tables.payments)
      ensures IsBlank(old(newEmployeeName)) ==>
                && tables.employees == old(tables.employees)
                && State() == old(State()).(error := MissingNameMessage)
      ensures !IsBlank(old(newEmployeeName)) && fault.Some? ==>
                && tables.employees == old(tables.employees)
                && State() == old(State()).(error := fault.value, saving := false)
      ensures !IsBlank(old(newEmployeeName)) && fault.None? ==>
                && tables.employees == old(tables.employees) + [Employee(newId, Trim(old(newEmployeeName)), createdAt)]
                && State() == AfterLoad(old(State()).(error := "", newEmployeeName := "", success := true),
                                        employeesListed, paymentsListed, employeesFault, paymentsFault)
                                .(saving := false)
    {
      if IsBlank(newEmployeeName) {
        error := MissingNameMessage;
        return;
      }
      SaveEmployee(tables, newId, createdAt, fault, employeesListed, paymentsListed, employeesFault, paymentsFault);
    }

    /** The `try` block of `handleAddPayment`: store `payment`; on success
        clear the amount, flag the success and reload. */
    method SavePayment(tables: EmployeeTables, payment: EmployeePayment, fault: Option<string>,
                       employeesListed: seq<Employee>, paymentsListed: seq<EmployeePayment>,
                       employeesFault: Option<string>, paymentsFault: Option<string>)
      requires ListedByName(employeesListed, tables.employees)
      requires ListedNewestFirst(paymentsListed, tables.payments + [payment])
      modifies this, tables
      ensures tables.employees == old(tables.employees)
      ensures fault.Some? ==>
                && tables.payments == old(tables.payments)
                && State() == old(State()).(error := fault.value, saving := false)
      ensures fault.None? ==>
                && tables.payments == old(tables.payments) + [payment]
                && State() == AfterLoad(old(State()).(error := "", paymentAmount := Empty, success := true),
                                        employeesListed, paymentsListed, employeesFault, paymentsFault)
                                .(saving := false)
    {
      // `saving` is true only while the store is busy; the page keeps its final value.
      var err := tables.InsertPayment(payment, fault);
      if err.Some? {
        error, saving := err.value, false;
        return;
      }
      error, paymentAmount, success := "", Empty, true;
      assert State() == old(State()).(error := "", paymentAmount := Empty, success := true);
      LoadData(tables, employeesListed, paymentsListed, employeesFault, paymentsFault);
      saving := false;
    }

    /** `handleAddPayment`: a complete form with an amount above 0 is stored
        (the date trimmed), the amount box is cleared and the lists reloaded. */
    method HandleAddPayment(tables: EmployeeTables, newId: string, createdAt: int, fault: Option<string>,
                            employeesListed: seq<Employee>, paymentsListed: seq<EmployeePayment>,
                            employeesFault: Option<string>, paymentsFault: Option<string>)
      requires ListedByName(employeesListed, tables.employees)
      requires PaymentError(selectedEmployeeId, paymentDate, paymentAmount).None? ==>
                 ListedNewestFirst(paymentsListed, tables.payments
                   + [EmployeePayment(newId, selectedEmployeeId, Trim(paymentDate), paymentType,
                                      ParseFloat(paymentAmount).value, createdAt)])
      modifies this, tables
      ensures tables.employees == old(tables.employees)
      ensures var e := PaymentError(old(selectedEmployeeId), old(paymentDate), old(paymentAmount));
              e.Some? ==>
                && tables.payments == old(tables.payments)
                && State() == old(State()).(error := e.value)
      ensures PaymentError(old(selectedEmployeeId), old(paymentDate), old(paymentAmount)).None? && fault.Some? ==>
                && tables.payments == old(tables.payments)
                && State() == old(State()).(error := fault.value, saving := false)
      ensures PaymentError(old(selectedEmployeeId), old(paymentDate), old(paymentAmount)).None? && fault.None? ==>
                && tables.payments == old(tables.payments)
                     + [EmployeePayment(newId, old(selectedEmployeeId), Trim(old(paymentDate)), old(paymentType),
                                        ParseFloat(old(paymentAmount)).value, createdAt)]
                && State() == AfterLoad(old(State()).(error := "", paymentAmount := Empty, success := true),
                                        employeesListed, paymentsListed, employeesFault, paymentsFault)
                                .(saving := false)
    {
      if selectedEmployeeId == "" || paymentDate == "" || paymentAmount.Empty? {
        error := MissingFieldsMessage;
        return;
      }
      var amount := ParseFloat(paymentAmount);
      if amount.None? || amount.value <= 0.0 {
        error := BadAmountMessage;
        return;
      }
      var payment := EmployeePayment(newId, selectedEmployeeId, Trim(paymentDate), paymentType, amount.value, createdAt);
      SavePayment(tables, payment, fault, employeesListed, paymentsListed, employeesFault, paymentsFault);
    }

    /** `handleDeletePayment`: after the confirmation, delete the payment and
        reload; a failed delete is shown in an alert. */
    method HandleDeletePayment(id: string, confirmed: bool, tables: EmployeeTables, fault: Option<string>,
                               employeesListed: seq<Employee>, paymentsListed: seq<EmployeePayment>,
                               employeesFault: Option<string>, paymentsFault: Option<string>)
      returns (alert: Option<string>)
      requires ListedByName(employeesListed, tables.employees)
      requires ListedNewestFirst(paymentsListed, WithoutKey(tables.payments, EmployeePaymentKey, id))
      modifies this, tables
      ensures tables.employees == old(tables.employees)
      ensures !confirmed ==> alert == None && tables.payments == old(tables.payments) && State() == old(State())
      ensures confirmed && fault.Some? ==>
                alert == fault && tables.payments == old(tables.payments) && State() == old(State())
      ensures confirmed && fault.None? ==>
                && alert == None
                && tables.payments == WithoutKey(old(tables.payments), EmployeePaymentKey, id)
                && (forall i :: 0 <= i < |tables.payments| ==> tables.payments[i].id != id)
                && State() == AfterLoad(old(State()), employeesListed, paymentsListed, employeesFault, paymentsFault)
    {
      if !confirmed {
        return None;
      }
      var err := tables.DeletePayment(id, fault);
      if err.Some? {
        return err;
      }
      LoadData(tables, employeesListed, paymentsListed, employeesFault, paymentsFault);
      alert := None;
    }

    /** `clearFilters`: afterwards every payment is counted and every card shown. */
    method ClearFilters()
      modifies this
      ensures State() == old(State()).(filterStart := "", filterEnd := "", filterEmployeeId := AllEmployees)
      ensures Filtered() == payments
      ensures forall e :: !CardHidden(filterEmployeeId, e)
    {
      filterStart, filterEnd, filterEmployeeId := "", "", AllEmployees;
      NoBoundsKeepsAll(payments, PaymentDate);
    }
  }
}
