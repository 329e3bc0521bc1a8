/** The daily reconciliation page (app/daily/page.tsx): the figures derived
    from the form on every change, the petty-cash total loaded for the selected
    date, and the save sequence: two hard checks, up to five confirmations,
    then the inserts of the daily record and its 4 sales, 4 payment and 5
    summary rows, and a best-effort audit entry. */
module Daily {
  import opened Common
  import opened Store
  import opened LocalStorage
  import UserName

  /** The boxes of the form and the selected date. */
  datatype DailyForm = DailyForm(
    date: string,
    grossSales: NumberText,     // ventas brutas
    charges: NumberText,        // cargos y comisiones
    netSales: NumberText,       // ventas netas
    cash: NumberText,
    ath: NumberText,
    debitCard: NumberText,
    creditCard: NumberText,
    registerFloat: NumberText,  // registradora, the till float
    deposit: NumberText)        // deposito

  /** The till float the form starts with ("147.50"). */
  const RegisterFloatDefault: real := 147.5

  /** The form as the page opens: every amount "0.00", the float "147.50". */
  function InitialForm(today: string): DailyForm
  {
    var zero := NumberToText(0.0);
    DailyForm(today, zero, zero, zero, zero, zero, zero, zero, NumberToText(RegisterFloatDefault), zero)
  }

  function Abs(x: real): real
  {
    if x < 0.0 then -x else x
  }

  // ---------------------------------------------------------------------------
  // calculos: the derived figures

  /** Total by payment method: cash + ath + debit + credit, an unparsable box counting 0. */
  function TotalByMethod(f: DailyForm): real
  {
    ParsedOrZero(f.cash) + ParsedOrZero(f.ath) + ParsedOrZero(f.debitCard) + ParsedOrZero(f.creditCard)
  }

  /** Cash - petty-cash total - till float - deposit, before the snap to zero. */
  function RawBalance(f: DailyForm, pettyCash: real): real
  {
    ParsedOrZero(f.cash) - pettyCash - ParsedOrZero(f.registerFloat) - ParsedOrZero(f.deposit)
  }

  /** `if (Math.abs(x) < 0.01) x = 0` */
  function Snap(x: real): real
  {
    if Abs(x) < 0.01 then 0.0 else x
  }

  function Balance(f: DailyForm, pettyCash: real): real
  {
    Snap(RawBalance(f, pettyCash))
  }

  /** Monto recaudado: net sales + charges. */
  function Collected(f: DailyForm): real
  {
    ParsedOrZero(f.netSales) + ParsedOrZero(f.charges)
  }

  datatype Figures = Figures(netSales: real, collected: real, totalByMethod: real, balance: real)

  /** What `calculos` returns for the current form and petty-cash total. */
  function Calculos(f: DailyForm, pettyCash: real): Figures
  {
    Figures(ParsedOrZero(f.netSales), Collected(f), TotalByMethod(f), Balance(f, pettyCash))
  }

  /** The balance differs from the raw figure by less than a cent, is either 0 or
      the raw figure, is 0 exactly when the raw figure is within a cent of 0, and
      is negative exactly when the raw figure is at most -0.01. */
  lemma BalanceSnap(f: DailyForm, pettyCash: real)
    ensures var b, raw := Balance(f, pettyCash), RawBalance(f, pettyCash);
            && Abs(b - raw) < 0.01
            && (b == 0.0 || b == raw)
            && (b == 0.0 <==> Abs(raw) < 0.01)
            && (b < 0.0 <==> raw <= -0.01)
  {
  }

  /** The figures of two filled-in forms: net 100 + charges 7 collect 107, and
      cash 200 less petty cash 50 and the 147.50 float leaves a balance of 2.50. */
  lemma WorkedExamples()
    ensures Collected(InitialForm("2024-05-01").(netSales := NumberToText(100.0), charges := NumberToText(7.0)))
            == 107.0
    ensures Balance(InitialForm("2024-05-01").(cash := NumberToText(200.0)), 50.0) == 2.5
  {
  }

  /** A box that does not parse counts as 0 in every derived figure. */
  lemma UnparsableCountsZero(f: DailyForm, pettyCash: real, t: NumberText)
    requires ParseFloat(t).None?
    ensures Calculos(f.(cash := t), pettyCash) == Calculos(f.(cash := NumberToText(0.0)), pettyCash)
    ensures Calculos(f.(netSales := t), pettyCash) == Calculos(f.(netSales := NumberToText(0.0)), pettyCash)
  {
  }

  // ---------------------------------------------------------------------------
  // loadGastosMenores: the petty-cash total of the selected date

  /** The ledger rows recorded on `date`. */
  function RowsOn(ledger: seq<PettyCashRecord>, date: string): seq<PettyCashRecord>
  {
    Filter(ledger, (r: PettyCashRecord) => r.date == date)
  }

  /** The sum of `value` over the ledger rows of `date`; the query's answer is
      None when it reports an error or throws, and then the total is 0. */
  function PettyCashTotal(ledger: Option<seq<PettyCashRecord>>, date: string): real
  {
    if ledger.None? then 0.0 else Sum(RowsOn(ledger.value, date), PettyCashValue)
  }

  /** A new ledger row moves the total of its own date by its value and leaves
      every other date's total alone. A daily record keeps the total it was saved
      with, so such a row makes it stale. */
  lemma {:induction false} PettyCashTotalAfterAppend(ledger: seq<PettyCashRecord>, r: PettyCashRecord, date: string)
    ensures PettyCashTotal(Some(ledger + [r]), date)
            == PettyCashTotal(Some(ledger), date) + (if r.date == date then r.value else 0.0)
  {
    var p := (x: PettyCashRecord) => x.date == date;
    FilterAppend(ledger, [r], p);
    SumAppend(Filter(ledger, p), Filter([r], p), PettyCashValue);
    assert [r][1..] == [];
    if r.date == date {
      assert Filter([r], p) == [r];
      assert [r][..0] == [];
    } else {
      assert Filter([r], p) == [];
    }
  }

  /** With positive ledger values (the only ones the petty-cash forms accept)
      the total of a date is never negative. */
  lemma {:induction false} PettyCashTotalNonNegative(ledger: seq<PettyCashRecord>, date: string)
    requires forall i :: 0 <= i < |ledger| ==> ledger[i].value > 0.0
    ensures PettyCashTotal(Some(ledger), date) >= 0.0
  {
    if |ledger| > 0 {
      var init := ledger[..|ledger| - 1];
      PettyCashTotalNonNegative(init, date);
      assert ledger == init + [ledger[|ledger| - 1]];
      PettyCashTotalAfterAppend(init, ledger[|ledger| - 1], date);
    }
  }

  // ---------------------------------------------------------------------------
  // handleSave: the checks before any write

  datatype HardError = MissingSales | NegativeSales

  function HardErrorMessage(e: HardError): string
  {
    match e
    case MissingSales => "Por favor completa las ventas brutas y ventas netas"
    case NegativeSales => "Las cantidades no pueden ser negativas"
  }

  /** The two hard checks: both sales boxes filled in, neither parsed value negative. */
  function HardCheck(f: DailyForm): Option<HardError>
  {
    if f.grossSales.Empty? || f.netSales.Empty? then Some(MissingSales)
    else if ParsedOrZero(f.grossSales) < 0.0 || ParsedOrZero(f.netSales) < 0.0 then Some(NegativeSales)
    else None
  }

  /** The confirmations, in the order they are asked. */
  datatype Prompt = NetOverGross | PaymentMismatch | NegativeBalance | ConfirmSave | DuplicateDate

  const PromptOrder: seq<Prompt> := [NetOverGross, PaymentMismatch, NegativeBalance, ConfirmSave, DuplicateDate]

  /** The payments differ from the collected amount by more than 1% of it and by more than 0.50. */
  predicate Mismatch(payments: real, collected: real)
  {
    Abs(payments - collected) > collected * 0.01 && Abs(payments - collected) > 0.5
  }

  /** The conditions of the optional prompts for one form. */
  datatype Conditions = Conditions(netOverGross: bool, mismatch: bool, negativeBalance: bool, dateExists: bool)

  function ConditionsOf(f: DailyForm, pettyCash: real, dateExists: bool): Conditions
  {
    Conditions(
      ParsedOrZero(f.netSales) > ParsedOrZero(f.grossSales),
      Mismatch(TotalByMethod(f), Collected(f)),
      Balance(f, pettyCash) < 0.0,
      dateExists)
  }

  /** Whether prompt `p` is due: its condition holds (the final confirmation always is). */
  predicate Due(p: Prompt, c: Conditions)
  {
    match p
    case NetOverGross => c.netOverGross
    case PaymentMismatch => c.mismatch
    case NegativeBalance => c.negativeBalance
    case ConfirmSave => true
    case DuplicateDate => c.dateExists
  }

  /** Where each prompt stands in the fixed order. */
  function Rank(p: Prompt): nat
  {
    match p
    case NetOverGross => 0
    case PaymentMismatch => 1
    case NegativeBalance => 2
    case ConfirmSave => 3
    case DuplicateDate => 4
  }

  function IfDue(due: bool, p: Prompt): seq<Prompt>
  {
    if due then [p] else []
  }

  /** The prompts due, in the fixed order. */
  function DuePrompts(c: Conditions): seq<Prompt>
  {
    IfDue(c.netOverGross, NetOverGross) + IfDue(c.mismatch, PaymentMismatch)
    + IfDue(c.negativeBalance, NegativeBalance) + [ConfirmSave] + IfDue(c.dateExists, DuplicateDate)
  }

  /** How the checks end: a hard error, a declined prompt, or every due prompt
      accepted; `asked` lists the prompts shown, in order. */
  datatype GateResult = Blocked(error: HardError) | Declined(asked: seq<Prompt>) | Passed(asked: seq<Prompt>)

  /** Ask each prompt of `due` in turn until one is declined. */
  function Ask(due: seq<Prompt>, confirm: Prompt -> bool): (g: GateResult)
    ensures !g.Blocked?
  {
    if |due| == 0 then Passed([])
    else if !confirm(due[0]) then Declined([due[0]])
    else
      match Ask(due[1..], confirm)
      case Passed(a) => Passed([due[0]] + a)
      case Declined(a) => Declined([due[0]] + a)
  }

  /** The outcome of the checks of handleSave, `confirm` giving the operator's answers. */
  function Gate(f: DailyForm, pettyCash: real, dateExists: bool, confirm: Prompt -> bool): GateResult
  {
    if HardCheck(f).Some? then Blocked(HardCheck(f).value)
    else Ask(DuePrompts(ConditionsOf(f, pettyCash, dateExists)), confirm)
  }

  /** Asking passes exactly when every due prompt is accepted, and then every
      due prompt was asked. */
  lemma {:induction false} AskPassesWhenAllAccepted(due: seq<Prompt>, confirm: Prompt -> bool)
    ensures Ask(due, confirm).Passed? <==> forall i :: 0 <= i < |due| ==> confirm(due[i])
    ensures Ask(due, confirm).Passed? ==> Ask(due, confirm).asked == due
  {
    if |due| > 0 && confirm(due[0]) {
      AskPassesWhenAllAccepted(due[1..], confirm);
      assert forall i :: 1 <= i < |due| ==> due[i] == due[1..][i - 1];
      assert [due[0]] + due[1..] == due;
    }
  }

  /** A declined ask has asked a prefix of the due prompts whose last one is
      the only one declined. */
  lemma {:induction false} AskDeclinedAtPrefix(due: seq<Prompt>, confirm: Prompt -> bool)
    ensures Ask(due, confirm).Declined? ==>
              var a := Ask(due, confirm).asked;
              && 0 < |a| <= |due| && a == due[..|a|]
              && !confirm(a[|a| - 1])
              && forall i :: 0 <= i < |a| - 1 ==> confirm(a[i])
  {
    if |due| > 0 && confirm(due[0]) {
      AskDeclinedAtPrefix(due[1..], confirm);
      var g := Ask(due[1..], confirm);
      if g.Declined? {
        assert !confirm(due[1..][|g.asked| - 1]);
        assert due[..|g.asked| + 1] == [due[0]] + due[1..][..|g.asked|];
      }
    }
  }

  /** Asking stops at the first declined prompt: it passes with every prompt
      asked exactly when each is accepted; otherwise the prompts asked are a
      prefix of the due ones whose last is the first declined. */
  lemma AskStopsAtFirstDecline(due: seq<Prompt>, confirm: Prompt -> bool)
    ensures Ask(due, confirm).Passed? <==> forall i :: 0 <= i < |due| ==> confirm(due[i])
    ensures Ask(due, confirm).Passed? ==> Ask(due, confirm).asked == due
    ensures Ask(due, confirm).Declined? ==>
              var a := Ask(due, confirm).asked;
              && 0 < |a| <= |due| && a == due[..|a|]
              && !confirm(a[|a| - 1])
              && forall i :: 0 <= i < |a| - 1 ==> confirm(a[i])
  {
    AskPassesWhenAllAccepted(due, confirm);
    AskDeclinedAtPrefix(due, confirm);
  }

  /** One more prompt after `prev`: asked only when `prev` passed and it is due. */
  function Step(due: bool, p: Prompt, confirm: Prompt -> bool, prev: GateResult): GateResult
  {
    if !prev.Passed? || !due then prev
    else if confirm(p) then Passed(prev.asked + [p])
    else Declined(prev.asked + [p])
  }

  /** Asking a list with one more (possibly absent) prompt at its end is one
      more step after asking the list. */
  lemma {:induction false} AskSnoc(a: seq<Prompt>, due: bool, p: Prompt, confirm: Prompt -> bool)
    ensures Ask(a + IfDue(due, p), confirm) == Step(due, p, confirm, Ask(a, confirm))
  {
    var tail := IfDue(due, p);
    if |a| == 0 {
      assert a + tail == tail;
      if due {
        assert tail[1..] == [];
      }
    } else {
      assert (a + tail)[0] == a[0] && (a + tail)[1..] == a[1..] + tail;
      if confirm(a[0]) {
        AskSnoc(a[1..], due, p, confirm);
        var g := Ask(a[1..], confirm);
        if g.Passed? && due {
          assert [a[0]] + (g.asked + [p]) == ([a[0]] + g.asked) + [p];
        }
      }
    }
  }

  /** Asking the due prompts is asking the five in the fixed order, skipping
      those that are not due: the shape the save sequence follows. */
  lemma AskInSteps(c: Conditions, confirm: Prompt -> bool)
    ensures Ask(DuePrompts(c), confirm)
            == Step(c.dateExists, DuplicateDate, confirm,
                 Step(true, ConfirmSave, confirm,
                   Step(c.negativeBalance, NegativeBalance, confirm,
                     Step(c.mismatch, PaymentMismatch, confirm,
                       Step(c.netOverGross, NetOverGross, confirm, Passed([]))))))
  {
    var a0: seq<Prompt> := [];
    var a1 := a0 + IfDue(c.netOverGross, NetOverGross);
    var a2 := a1 + IfDue(c.mismatch, PaymentMismatch);
    var a3 := a2 + IfDue(c.negativeBalance, NegativeBalance);
    var a4 := a3 + IfDue(true, ConfirmSave);
    var a5 := a4 + IfDue(c.dateExists, DuplicateDate);
    assert a5 == DuePrompts(c);
    AskSnoc(a0, c.netOverGross, NetOverGross, confirm);
    AskSnoc(a1, c.mismatch, PaymentMismatch, confirm);
    AskSnoc(a2, c.negativeBalance, NegativeBalance, confirm);
    AskSnoc(a3, true, ConfirmSave, confirm);
    AskSnoc(a4, c.dateExists, DuplicateDate, confirm);
  }

  /** The prompts due are exactly those whose condition holds, the final
      confirmation always among them, in the order of `PromptOrder`. */
  lemma DuePromptsInOrder(c: Conditions)
    ensures forall p :: p in DuePrompts(c) <==> Due(p, c)
    ensures forall i, j :: 0 <= i < j < |DuePrompts(c)| ==> Rank(DuePrompts(c)[i]) < Rank(DuePrompts(c)[j])
    ensures forall i :: 0 <= i < |PromptOrder| ==> Rank(PromptOrder[i]) == i
  {
  }

  /** The save goes ahead exactly when both hard checks pass and every due
      prompt is accepted, and then every due prompt has been asked, the final
      confirmation among them. */
  lemma GatePassesIffAllAccepted(f: DailyForm, pettyCash: real, dateExists: bool, confirm: Prompt -> bool)
    ensures var c := ConditionsOf(f, pettyCash, dateExists);
            Gate(f, pettyCash, dateExists, confirm).Passed? <==>
              HardCheck(f).None? && forall p :: Due(p, c) ==> confirm(p)
    ensures Gate(f, pettyCash, dateExists, confirm).Passed? ==>
              Gate(f, pettyCash, dateExists, confirm).asked == DuePrompts(ConditionsOf(f, pettyCash, dateExists))
              && confirm(ConfirmSave)
  {
    var c := ConditionsOf(f, pettyCash, dateExists);
    var due := DuePrompts(c);
    AskStopsAtFirstDecline(due, confirm);
    DuePromptsInOrder(c);
    if HardCheck(f).None? && forall i :: 0 <= i < |due| ==> confirm(due[i]) {
      forall p | Due(p, c) ensures confirm(p) {
        var i :| 0 <= i < |due| && due[i] == p;
      }
    }
  }

  /** A declined prompt ends the checks: every prompt asked before it was due
      and accepted, it is due and declined, and no later prompt is asked. */
  lemma DeclineStopsTheSave(f: DailyForm, pettyCash: real, dateExists: bool, confirm: Prompt -> bool)
    requires Gate(f, pettyCash, dateExists, confirm).Declined?
    ensures var a, c := Gate(f, pettyCash, dateExists, confirm).asked, ConditionsOf(f, pettyCash, dateExists);
            && HardCheck(f).None?
            && 0 < |a| <= |DuePrompts(c)| && a == DuePrompts(c)[..|a|]
            && Due(a[|a| - 1], c) && !confirm(a[|a| - 1])
            && forall i :: 0 <= i < |a| - 1 ==> Due(a[i], c) && confirm(a[i])
  {
    var c := ConditionsOf(f, pettyCash, dateExists);
    AskStopsAtFirstDecline(DuePrompts(c), confirm);
    DuePromptsInOrder(c);
    var a := Gate(f, pettyCash, dateExists, confirm).asked;
    forall i | 0 <= i < |a| ensures Due(a[i], c) {
      assert a[i] == DuePrompts(c)[i];
    }
  }

  /** Only the two sales boxes are checked: a non-empty text that does not parse
      passes as 0 and is stored as NaN, and a negative payment box does not block. */
  lemma OnlySalesBoxesChecked(f: DailyForm)
    requires f.grossSales == Typed(None) && !f.netSales.Empty? && ParsedOrZero(f.netSales) >= 0.0
    ensures HardCheck(f).None?
    ensures HardCheck(f.(cash := NumberToText(-5.0))).None?
    ensures SalesRows("r", f)[0].amount.None?
  {
  }

  // ---------------------------------------------------------------------------
  // handleSave: the rows written

  function SalesRows(id: string, f: DailyForm): seq<SalesRow>
  {
    [ SalesRow(id, "VENTAS BRUTAS", ParseFloat(f.grossSales)),
      SalesRow(id, "CARGOS Y COMISIONES", Some(ParsedOrZero(f.charges))),
      SalesRow(id, "VENTAS NETAS", ParseFloat(f.netSales)),
      SalesRow(id, "MONTO RECAUDADO", Some(Collected(f))) ]
  }

  function PaymentRows(id: string, f: DailyForm): seq<PaymentRow>
  {
    [ PaymentRow(id, "CASH", ParsedOrZero(f.cash)),
      PaymentRow(id, "ATH", ParsedOrZero(f.ath)),
      PaymentRow(id, "DEBIT CARD (DC)", ParsedOrZero(f.debitCard)),
      PaymentRow(id, "CREDIT CARD (CC)", ParsedOrZero(f.creditCard)) ]
  }

  function SummaryRows(id: string, f: DailyForm, pettyCash: real): seq<SummaryRow>
  {
    [ SummaryRow(id, "TOTAL VENTAS", TotalByMethod(f), true),
      SummaryRow(id, "GASTOS MENORES", pettyCash, true),
      SummaryRow(id, "BALANCE", Balance(f, pettyCash), true),
      SummaryRow(id, "DEPOSITO", ParsedOrZero(f.deposit), false),
      SummaryRow(id, "REGISTRADORA", ParsedOrZero(f.registerFloat), false) ]
  }

  /** The `changes` of the CREATE audit entry. */
  function CreatedChanges(f: DailyForm, pettyCash: real): AuditChanges
  {
    CreatedFields([
      ("ventasBrutas", ParseFloat(f.grossSales)),
      ("cargosComisiones", Some(ParsedOrZero(f.charges))),
      ("ventasNetas", ParseFloat(f.netSales)),
      ("cash", Some(ParsedOrZero(f.cash))),
      ("ath", Some(ParsedOrZero(f.ath))),
      ("debitCard", Some(ParsedOrZero(f.debitCard))),
      ("creditCard", Some(ParsedOrZero(f.creditCard))),
      ("gastosMenores", Some(pettyCash)),
      ("registradora", Some(ParsedOrZero(f.registerFloat))),
      ("deposito", Some(ParsedOrZero(f.deposit)))])
  }

  function PaymentAmount(r: PaymentRow): real
  {
    r.amount
  }

  /** The rows of one save agree with each other and with the live figures:
      4 sales rows ending with the collected amount, 4 payment rows that add up
      to the TOTAL VENTAS row, 5 summary rows whose BALANCE is the snapped
      cash - GASTOS MENORES - REGISTRADORA - DEPOSITO, with TOTAL VENTAS,
      GASTOS MENORES and BALANCE flagged as calculated. */
  lemma SavedRowsAgree(id: string, f: DailyForm, pettyCash: real)
    ensures |SalesRows(id, f)| == 4 && |PaymentRows(id, f)| == 4 && |SummaryRows(id, f, pettyCash)| == 5
    ensures forall i :: 0 <= i < 4 ==> SalesRows(id, f)[i].recordId == id && PaymentRows(id, f)[i].recordId == id
    ensures forall i :: 0 <= i < 5 ==> SummaryRows(id, f, pettyCash)[i].recordId == id
    ensures SalesRows(id, f)[3].amount == Some(Calculos(f, pettyCash).collected)
    ensures Sum(PaymentRows(id, f), PaymentAmount) == SummaryRows(id, f, pettyCash)[0].amount
            == Calculos(f, pettyCash).totalByMethod
    ensures var sums := SummaryRows(id, f, pettyCash);
            && sums[2].amount == Calculos(f, pettyCash).balance
            && sums[2].amount == Snap(PaymentRows(id, f)[0].amount - sums[1].amount - sums[4].amount - sums[3].amount)
    ensures forall i :: 0 <= i < 5 ==> (SummaryRows(id, f, pettyCash)[i].isCalculated <==> i < 3)
  {
    var pays := PaymentRows(id, f);
    assert pays[..3] == [pays[0], pays[1], pays[2]];
    assert pays[..3][..2] == [pays[0], pays[1]];
    assert pays[..3][..2][..1] == [pays[0]];
    assert pays[..3][..2][..1][..0] == [];
    assert Sum(pays[..3][..2][..1], PaymentAmount) == pays[0].amount;
    assert Sum(pays[..3][..2], PaymentAmount) == pays[0].amount + pays[1].amount;
    assert Sum(pays[..3], PaymentAmount) == pays[0].amount + pays[1].amount + pays[2].amount;
  }

  // ---------------------------------------------------------------------------
  // the page

  /** What the store answers to each write of a save (None: success; Some(m):
      the save stops and the page shows `m`). */
  datatype SaveFaults = SaveFaults(
    record: Option<string>, sales: Option<string>, payments: Option<string>,
    summary: Option<string>, audit: Option<string>)

  /** The id and creation time the store gives the new record, and the long
      Spanish weekday name the locale gives its date. */
  datatype NewRecord = NewRecord(id: string, dayName: string, createdAt: int)

  datatype SaveOutcome = Rejected(error: HardError) | Cancelled | StoreFailed(message: string) | Saved(recordId: string)

  /** The first failing write among the four that abort the save, if any. */
  function FirstWriteFault(faults: SaveFaults): Option<string>
  {
    if faults.record.Some? then faults.record
    else if faults.sales.Some? then faults.sales
    else if faults.payments.Some? then faults.payments
    else faults.summary
  }

  function RecordsOn(records: seq<DailyRecord>, date: string): seq<DailyRecord>
  {
    Filter(records, (r: DailyRecord) => r.date == date)
  }

  /** `.single()` gives a row only when exactly one record has the date; on a
      query error, or with no or several such records, the page sees none. */
  function DateExistsFrom(records: Option<seq<DailyRecord>>, date: string): bool
  {
    records.Some? && |RecordsOn(records.value, date)| == 1
  }

  /** The duplicate prompt shows exactly when one record has the date; once a
      date holds two records, a third save is not warned about. */
  lemma {:induction false} DuplicatePromptNeedsExactlyOne(records: seq<DailyRecord>, r: DailyRecord, f: DailyForm,
                                                         pettyCash: real)
    requires r.date == f.date && |RecordsOn(records, f.date)| == 1
    ensures DateExistsFrom(Some(records), f.date)
    ensures DuplicateDate in DuePrompts(ConditionsOf(f, pettyCash, DateExistsFrom(Some(records), f.date)))
    ensures !DateExistsFrom(Some(records + [r]), f.date)
    ensures DuplicateDate !in DuePrompts(ConditionsOf(f, pettyCash, DateExistsFrom(Some(records + [r]), f.date)))
  {
    var p := (x: DailyRecord) => x.date == f.date;
    FilterAppend(records, [r], p);
    assert [r][1..] == [];
    DuePromptsInOrder(ConditionsOf(f, pettyCash, true));
    DuePromptsInOrder(ConditionsOf(f, pettyCash, false));
  }

  class DailyPage {
    var form: DailyForm
    var pettyCash: real      // gastosMenores, loaded for form.date
    var dateExists: bool
    var error: string
    var loading: bool
    var success: bool

    constructor (today: string)
      ensures form == InitialForm(today) && pettyCash == 0.0 && !dateExists
      ensures error == "" && !loading && !success
    {
      form := InitialForm(today);
      pettyCash := 0.0;
      dateExists := false;
      error := "";
      loading := false;
      success := false;
    }

    /** The live figures shown while the form is edited. */
    function Live(): Figures
      reads this
    {
      Calculos(form, pettyCash)
    }

    /** The boxes' change handlers. */
    method Edit(f: DailyForm)
      modifies this
      ensures form == f
      ensures pettyCash == old(pettyCash) && dateExists == old(dateExists)
      ensures error == old(error) && loading == old(loading) && success == old(success)
    {
      form := f;
    }

    /** `loadGastosMenores`, run whenever the date changes. */
    method LoadPettyCash(ledger: Option<seq<PettyCashRecord>>)
      modifies this
      ensures pettyCash == PettyCashTotal(ledger, form.date)
      ensures form == old(form) && dateExists == old(dateExists)
      ensures error == old(error) && loading == old(loading) && success == old(success)
    {
      pettyCash := PettyCashTotal(ledger, form.date);
    }

    /** `checkDateExists`, run whenever the date changes. */
    method CheckDateExists(records: Option<seq<DailyRecord>>)
      modifies this
      ensures dateExists == DateExistsFrom(records, form.date)
      ensures form == old(form) && pettyCash == old(pettyCash)
      ensures error == old(error) && loading == old(loading) && success == old(success)
    {
      dateExists := DateExistsFrom(records, form.date);
    }

    /** The checks at the start of `handleSave`, asked in the source's order. */
    method CheckBeforeSave(confirm: Prompt -> bool) returns (g: GateResult)
      ensures g == Gate(form, pettyCash, dateExists, confirm)
    {
      var f := form;
      if f.grossSales.Empty? || f.netSales.Empty? {
        return Blocked(MissingSales);
      }
      var gross := ParsedOrZero(f.grossSales);
      var net := ParsedOrZero(f.netSales);
      var charges := ParsedOrZero(f.charges);
      if gross < 0.0 || net < 0.0 {
        return Blocked(NegativeSales);
      }
      AskInSteps(ConditionsOf(f, pettyCash, dateExists), confirm);

      var asked: seq<Prompt> := [];
      if net > gross {
        asked := asked + [NetOverGross];
        if !confirm(NetOverGross) {
          return Declined(asked);
        }
      }

      var totalPayments := ParsedOrZero(f.cash) + ParsedOrZero(f.ath)
                           + ParsedOrZero(f.debitCard) + ParsedOrZero(f.creditCard);
      var collected := net + charges;
      var difference := Abs(totalPayments - collected);
      var threshold := collected * 0.01;
      if difference > threshold && difference > 0.5 {
        asked := asked + [PaymentMismatch];
        if !confirm(PaymentMismatch) {
          return Declined(asked);
        }
      }

      if Balance(f, pettyCash) < 0.0 {
        asked := asked + [NegativeBalance];
        if !confirm(NegativeBalance) {
          return Declined(asked);
        }
      }

      asked := asked + [ConfirmSave];
      if !confirm(ConfirmSave) {
        return Declined(asked);
      }

      if dateExists {
        asked := asked + [DuplicateDate];
        if !confirm(DuplicateDate) {
          return Declined(asked);
        }
      }
      return Passed(asked);
    }

    /** `handleSave`: the checks, then the inserts of the record and its child
        rows in order, stopping at the first store error (earlier inserts stay);
        the audit entry's own failure is ignored. */
    method HandleSave(confirm: Prompt -> bool, newRecord: NewRecord, faults: SaveFaults,
                      tables: DailyTables, users: KeyValueStore?, answer: Option<string>)
      returns (g: GateResult, outcome: SaveOutcome)
      modifies this, tables, users
      ensures g == Gate(old(form), old(pettyCash), old(dateExists), confirm)
      ensures form == old(form) && pettyCash == old(pettyCash) && dateExists == old(dateExists)
      ensures !loading
      ensures g.Blocked? ==> outcome == Rejected(g.error) && error == HardErrorMessage(g.error)
      ensures g.Declined? ==> outcome == Cancelled && error == ""
      ensures !g.Passed? ==>
                && success == old(success)
                && tables.records == old(tables.records) && tables.sales == old(tables.sales)
                && tables.payments == old(tables.payments) && tables.summary == old(tables.summary)
                && tables.audit == old(tables.audit)
                && (users != null ==> users.entries == old(users.entries))
      ensures g.Passed? ==>
                && outcome == SaveResult(faults, newRecord)
                && error == (if outcome.StoreFailed? then outcome.message else "")
                && success == (outcome.Saved? || old(success))
                && tables.records == old(tables.records) + RecordWritten(faults, form, newRecord)
                && tables.sales == old(tables.sales) + SalesWritten(faults, form, newRecord)
                && tables.payments == old(tables.payments) + PaymentsWritten(faults, form, newRecord)
                && tables.summary == old(tables.summary) + SummaryWritten(faults, form, pettyCash, newRecord)
                && tables.audit == old(tables.audit)
                     + AuditWritten(faults, form, pettyCash, newRecord, UserName.Actor(if users == null then None else Some(old(users.entries)), answer))
                && (users != null ==>
                      users.entries == if FirstWriteFault(faults).None?
                                       then UserName.LookupName(old(users.entries), answer).entries
                                       else old(users.entries))
    {
      error := "";
      loading := true;
      g := CheckBeforeSave(confirm);
      if g.Blocked? {
        error := HardErrorMessage(g.error);
        loading := false;
        return g, Rejected(g.error);
      }
      if g.Declined? {
        loading := false;
        return g, Cancelled;
      }
      outcome := WriteDay(newRecord, faults, tables, users, answer);
      if outcome.StoreFailed? {
        error := outcome.message;
      } else {
        success := true;
      }
      loading := false;
    }

    /** The writes of `handleSave`, once every check has passed. */
    method WriteDay(newRecord: NewRecord, faults: SaveFaults, tables: DailyTables, users: KeyValueStore?,
                    answer: Option<string>) returns (outcome: SaveOutcome)
      modifies tables, users
      ensures outcome == SaveResult(faults, newRecord)
      ensures tables.records == old(tables.records) + RecordWritten(faults, form, newRecord)
      ensures tables.sales == old(tables.sales) + SalesWritten(faults, form, newRecord)
      ensures tables.payments == old(tables.payments) + PaymentsWritten(faults, form, newRecord)
      ensures tables.summary == old(tables.summary) + SummaryWritten(faults, form, pettyCash, newRecord)
      ensures tables.audit == old(tables.audit)
                + AuditWritten(faults, form, pettyCash, newRecord, UserName.Actor(if users == null then None else Some(old(users.entries)), answer))
      ensures users != null ==>
                users.entries == if FirstWriteFault(faults).None?
                                 then UserName.LookupName(old(users.entries), answer).entries
                                 else old(users.entries)
    {
      var f := form;
      var inserted := tables.InsertRecord(newRecord.id, f.date, newRecord.dayName, newRecord.createdAt, faults.record);
      if inserted.Failure? {
        return StoreFailed(inserted.message);
      }
      var id := inserted.value.id;
      var err := tables.InsertSales(SalesRows(id, f), faults.sales);
      if err.Some? {
        return StoreFailed(err.value);
      }
      err := tables.InsertPayments(PaymentRows(id, f), faults.payments);
      if err.Some? {
        return StoreFailed(err.value);
      }
      err := tables.InsertSummary(SummaryRows(id, f, pettyCash), faults.summary);
      if err.Some? {
        return StoreFailed(err.value);
      }
      var actor, _ := UserName.GetUserName(users, answer);
      var _ := tables.InsertAudit(AuditEntry(id, actor, Create, CreatedChanges(f, pettyCash)), faults.audit);
      outcome := Saved(id);
    }
  }

  /** How a save that passed its checks ends. */
  function SaveResult(faults: SaveFaults, newRecord: NewRecord): SaveOutcome
  {
    if FirstWriteFault(faults).Some? then StoreFailed(FirstWriteFault(faults).value) else Saved(newRecord.id)
  }

  // What each table gains from one save that passed its checks: a write happens
  // only when every earlier write succeeded.

  function RecordWritten(faults: SaveFaults, f: DailyForm, n: NewRecord): seq<DailyRecord>
  {
    if faults.record.None? then [DailyRecord(n.id, f.date, n.dayName, n.createdAt)] else []
  }

  function SalesWritten(faults: SaveFaults, f: DailyForm, n: NewRecord): seq<SalesRow>
  {
    if faults.record.None? && faults.sales.None? then SalesRows(n.id, f) else []
  }

  function PaymentsWritten(faults: SaveFaults, f: DailyForm, n: NewRecord): seq<PaymentRow>
  {
    if faults.record.None? && faults.sales.None? && faults.payments.None? then PaymentRows(n.id, f) else []
  }

  function SummaryWritten(faults: SaveFaults, f: DailyForm, pettyCash: real, n: NewRecord): seq<SummaryRow>
  {
    if FirstWriteFault(faults).None? then SummaryRows(n.id, f, pettyCash) else []
  }

  function AuditWritten(faults: SaveFaults, f: DailyForm, pettyCash: real, n: NewRecord, actor: string)
    : seq<AuditEntry>
  {
    if FirstWriteFault(faults).None? && faults.audit.None?
    then [AuditEntry(n.id, actor, Create, CreatedChanges(f, pettyCash))] else []
  }

  /** A save that reports success has written the whole record: the record,
      its 4 sales, 4 payment and 5 summary rows, all under the record's id; a
      failed audit insert does not change the outcome. A save that fails leaves
      the writes before the failing one in place. */
  lemma SavedMeansComplete(faults: SaveFaults, f: DailyForm, pettyCash: real, n: NewRecord)
    ensures SaveResult(faults, n).Saved? <==>
              faults.record.None? && faults.sales.None? && faults.payments.None? && faults.summary.None?
    ensures SaveResult(faults, n).Saved? ==>
              && |RecordWritten(faults, f, n)| == 1 && RecordWritten(faults, f, n)[0].id == n.id
              && |SalesWritten(faults, f, n)| == 4 && |PaymentsWritten(faults, f, n)| == 4
              && |SummaryWritten(faults, f, pettyCash, n)| == 5
              && SaveResult(faults.(audit := Some("audit")), n) == SaveResult(faults, n)
    ensures faults.record.None? && faults.sales.Some? ==>
              SaveResult(faults, n) == StoreFailed(faults.sales.value)
              && |RecordWritten(faults, f, n)| == 1 && SalesWritten(faults, f, n) == []
  {
    SavedRowsAgree(n.id, f, pettyCash);
  }
}
