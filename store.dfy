/** The hosted relational store as the pages use it: the rows of each table and
    the inserts, updates and deletes the pages issue. Every call takes a `fault`
    argument, the error the store answers with (None when it succeeds), so the
    model covers every store failure the pages can meet. A failed call changes
    nothing; a bulk insert is one statement, so it stores all its rows or none. */
module Store {
  import opened Common

  // ---------------------------------------------------------------------------
  // caja_menor_records: the petty-cash ledger

  /** A row of `caja_menor_records`; `createdAt` is the store's creation time in ms. */
  datatype PettyCashRecord = PettyCashRecord(
    id: string, date: string, category: string, name: string, value: real, createdAt: int)

  function PettyCashValue(r: PettyCashRecord): real
  {
    r.value
  }

  /** `rows.filter(r => r.id !== id)` */
  function WithoutId(rows: seq<PettyCashRecord>, id: string): (r: seq<PettyCashRecord>)
    ensures forall i :: 0 <= i < |r| ==> r[i].id != id && r[i] in rows
    ensures forall i :: 0 <= i < |rows| && rows[i].id != id ==> rows[i] in r
  {
    Filter(rows, (x: PettyCashRecord) => x.id != id)
  }

  /** `rows.map(r => r.id === id ? { ...r, date, category, name, value } : r)` */
  function WithEdit(rows: seq<PettyCashRecord>, id: string, date: string, category: string,
                    name: string, value: real): (r: seq<PettyCashRecord>)
    ensures |r| == |rows|
    ensures forall i :: 0 <= i < |rows| ==> r[i].id == rows[i].id && r[i].createdAt == rows[i].createdAt
    ensures forall i :: 0 <= i < |rows| && rows[i].id != id ==> r[i] == rows[i]
    ensures forall i :: 0 <= i < |rows| && rows[i].id == id ==>
              r[i].date == date && r[i].category == category && r[i].name == name && r[i].value == value
  {
    seq(|rows|, i requires 0 <= i < |rows| =>
      if rows[i].id == id then rows[i].(date := date, category := category, name := name, value := value)
      else rows[i])
  }

  class PettyCashTable {
    var rows: seq<PettyCashRecord>

    constructor (initial: seq<PettyCashRecord>)
      ensures rows == initial
    {
      rows := initial;
    }

    /** `insert({...}).select().single()`: the stored row, with the id and
        creation time the store assigns, comes back. */
    method Insert(id: string, date: string, category: string, name: string, value: real,
                  createdAt: int, fault: Option<string>) returns (r: Result<PettyCashRecord>)
      modifies this
      ensures fault.Some? ==> r == Failure(fault.value) && rows == old(rows)
      ensures fault.None? ==> r == Success(PettyCashRecord(id, date, category, name, value, createdAt))
                              && rows == old(rows) + [r.value]
    {
      if fault.Some? {
        return Failure(fault.value);
      }
      r := Success(PettyCashRecord(id, date, category, name, value, createdAt));
      rows := rows + [r.value];
    }

    /** `update({ date, category, name, value }).eq("id", id)` */
    method Update(id: string, date: string, category: string, name: string, value: real,
                  fault: Option<string>) returns (err: Option<string>)
      modifies this
      ensures err == fault
      ensures rows == if fault.None? then WithEdit(old(rows), id, date, category, name, value) else old(rows)
    {
      err := fault;
      if fault.None? {
        rows := WithEdit(rows, id, date, category, name, value);
      }
    }

    /** `delete().eq("id", id)` */
    method Delete(id: string, fault: Option<string>) returns (err: Option<string>)
      modifies this
      ensures err == fault
      ensures rows == if fault.None? then WithoutId(old(rows), id) else old(rows)
    {
      err := fault;
      if fault.None? {
        rows := WithoutId(rows, id);
      }
    }
  }

  // ---------------------------------------------------------------------------
  // daily_records and its child tables

  datatype DailyRecord = DailyRecord(id: string, date: string, dayName: string, createdAt: int)

  /** A row of `sales_data`; a missing or NaN amount is None. */
  datatype SalesRow = SalesRow(recordId: string, category: string, amount: Option<real>)

  /** A row of `payment_methods`. */
  datatype PaymentRow = PaymentRow(recordId: string, methodName: string, amount: real)

  /** A row of `summary_data`. */
  datatype SummaryRow = SummaryRow(recordId: string, labelName: string, amount: real, isCalculated: bool)

  datatype AuditAction = Create | Update | Delete

  /** The `changes` payload of an audit entry. */
  datatype AuditChanges =
    | CreatedFields(fields: seq<(string, Option<real>)>)
    | DeletedRecord(date: string, dayName: string)

  /** A row of `audit_log`. */
  datatype AuditEntry = AuditEntry(recordId: string, userName: string, action: AuditAction, changes: AuditChanges)

  function DailyRecordKey(r: DailyRecord): string { r.id }
  function SalesRowKey(r: SalesRow): string { r.recordId }
  function PaymentRowKey(r: PaymentRow): string { r.recordId }
  function SummaryRowKey(r: SummaryRow): string { r.recordId }
  function AuditEntryKey(r: AuditEntry): string { r.recordId }

  /** The rows whose key differs from `id`: what a delete by that key leaves. */
  function WithoutKey<T>(rows: seq<T>, key: T -> string, id: string): (r: seq<T>)
    ensures forall i :: 0 <= i < |r| ==> key(r[i]) != id && r[i] in rows
    ensures forall i :: 0 <= i < |rows| && key(rows[i]) != id ==> rows[i] in r
  {
    Filter(rows, x => key(x) != id)
  }

  class DailyTables {
    var records: seq<DailyRecord>
    var sales: seq<SalesRow>
    var payments: seq<PaymentRow>
    var summary: seq<SummaryRow>
    var audit: seq<AuditEntry>

    constructor ()
      ensures records == [] && sales == [] && payments == [] && summary == [] && audit == []
    {
      records, sales, payments, summary, audit := [], [], [], [], [];
    }

    /** `from("daily_records").insert({ date, day_name }).select().single()` */
    method InsertRecord(id: string, date: string, dayName: string, createdAt: int,
                        fault: Option<string>) returns (r: Result<DailyRecord>)
      modifies this
      ensures fault.Some? ==> r == Failure(fault.value) && records == old(records)
      ensures fault.None? ==> r == Success(DailyRecord(id, date, dayName, createdAt))
                              && records == old(records) + [r.value]
      ensures sales == old(sales) && payments == old(payments)
      ensures summary == old(summary) && audit == old(audit)
    {
      if fault.Some? {
        return Failure(fault.value);
      }
      r := Success(DailyRecord(id, date, dayName, createdAt));
      records := records + [r.value];
    }

    method InsertSales(rows: seq<SalesRow>, fault: Option<string>) returns (err: Option<string>)
      modifies this
      ensures err == fault
      ensures sales == if fault.None? then old(sales) + rows else old(sales)
      ensures records == old(records) && payments == old(payments)
      ensures summary == old(summary) && audit == old(audit)
    {
      err := fault;
      if fault.None? {
        sales := sales + rows;
      }
    }

    method InsertPayments(rows: seq<PaymentRow>, fault: Option<string>) returns (err: Option<string>)
      modifies this
      ensures err == fault
      ensures payments == if fault.None? then old(payments) + rows else old(payments)
      ensures records == old(records) && sales == old(sales)
      ensures summary == old(summary) && audit == old(audit)
    {
      err := fault;
      if fault.None? {
        payments := payments + rows;
      }
    }

    method InsertSummary(rows: seq<SummaryRow>, fault: Option<string>) returns (err: Option<string>)
      modifies this
      ensures err == fault
      ensures summary == if fault.None? then old(summary) + rows else old(summary)
      ensures records == old(records) && sales == old(sales)
      ensures payments == old(payments) && audit == old(audit)
    {
      err := fault;
      if fault.None? {
        summary := summary + rows;
      }
    }

    method InsertAudit(entry: AuditEntry, fault: Option<string>) returns (err: Option<string>)
      modifies this
      ensures err == fault
      ensures audit == if fault.None? then old(audit) + [entry] else old(audit)
      ensures records == old(records) && sales == old(sales)
      ensures payments == old(payments) && summary == old(summary)
    {
      err := fault;
      if fault.None? {
        audit := audit + [entry];
      }
    }

    /** `from("daily_records").delete().eq("id", id)`: the store cascades the
        delete to the sales, payment, summary and audit rows of the record. */
    method DeleteRecord(id: string, fault: Option<string>) returns (err: Option<string>)
      modifies this
      ensures err == fault
      ensures fault.Some? ==> records == old(records) && sales == old(sales) && payments == old(payments)
                              && summary == old(summary) && audit == old(audit)
      ensures fault.None? ==>
                && records == WithoutKey(old(records), DailyRecordKey, id)
                && sales == WithoutKey(old(sales), SalesRowKey, id)
                && payments == WithoutKey(old(payments), PaymentRowKey, id)
                && summary == WithoutKey(old(summary), SummaryRowKey, id)
                && audit == WithoutKey(old(audit), AuditEntryKey, id)
    {
      err := fault;
      if fault.None? {
        records := WithoutKey(records, DailyRecordKey, id);
        sales := WithoutKey(sales, SalesRowKey, id);
        payments := WithoutKey(payments, PaymentRowKey, id);
        summary := WithoutKey(summary, SummaryRowKey, id);
        audit := WithoutKey(audit, AuditEntryKey, id);
      }
    }
  }

  // ---------------------------------------------------------------------------
  // employees and employee_payments

  datatype Employee = Employee(id: string, name: string, createdAt: int)

  /** `payment_type`: "cash" or "transferencia". */
  datatype PaymentType = Cash | Transfer

  datatype EmployeePayment = EmployeePayment(
    id: string, employeeId: string, date: string, paymentType: PaymentType, amount: real, createdAt: int)

  function EmployeePaymentKey(p: EmployeePayment): string { p.id }

  class EmployeeTables {
    var employees: seq<Employee>
    var payments: seq<EmployeePayment>

    constructor ()
      ensures employees == [] && payments == []
    {
      employees, payments := [], [];
    }

    method InsertEmployee(id: string, name: string, createdAt: int, fault: Option<string>)
      returns (err: Option<string>)
      modifies this
      ensures err == fault
      ensures employees == if fault.None? then old(employees) + [Employee(id, name, createdAt)] else old(employees)
      ensures payments == old(payments)
    {
      err := fault;
      if fault.None? {
        employees := employees + [Employee(id, name, createdAt)];
      }
    }

    method InsertPayment(payment: EmployeePayment, fault: Option<string>) returns (err: Option<string>)
      modifies this
      ensures err == fault
      ensures payments == if fault.None? then old(payments) + [payment] else old(payments)
      ensures employees == old(employees)
    {
      err := fault;
      if fault.None? {
        payments := payments + [payment];
      }
    }

    method DeletePayment(id: string, fault: Option<string>) returns (err: Option<string>)
      modifies this
      ensures err == fault
      ensures payments == if fault.None? then WithoutKey(old(payments), EmployeePaymentKey, id) else old(payments)
      ensures employees == old(employees)
    {
      err := fault;
      if fault.None? {
        payments := WithoutKey(payments, EmployeePaymentKey, id);
      }
    }
  }
}
