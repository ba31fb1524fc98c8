/** The financial management screen (src/components/FinancialManagementPanel.tsx):
    the figures it derives from the ledger, the payloads its three forms send,
    the guards in front of them, and the form and dialog state the handlers reset. */
module FinancialPanel {
  import opened Base
  import opened Seqs
  import opened Financial

  /** Net profit: income less expenses. */
  function Profit(income: seq<IncomeRecord>, expenses: seq<Expense>): int
  {
    TotalIncome(income) - TotalExpenses(expenses)
  }

  /** Recording income raises the profit by its amount, recording an expense
      lowers it by its amount; profit is negative as soon as expenses exceed income. */
  lemma ProfitMoves(income: seq<IncomeRecord>, expenses: seq<Expense>, r: IncomeRecord, e: Expense)
    ensures Profit([r] + income, expenses) == Profit(income, expenses) + r.amount
    ensures Profit(income, [e] + expenses) == Profit(income, expenses) - e.amount
    ensures Profit(income, expenses) < 0 <==> TotalExpenses(expenses) > TotalIncome(income)
  {
    assert ([r] + income)[1..] == income;
    assert ([e] + expenses)[1..] == expenses;
  }

  /** The records offered as payment targets: those not marked `Paid`, in list order. */
  function PendingIncomeRecords(income: seq<IncomeRecord>): (r: seq<IncomeRecord>)
    ensures forall i :: 0 <= i < |r| ==> r[i].paymentStatus != Paid && r[i] in income
  {
    Filter(income, IsUnpaid)
  }

  /** A record is offered exactly when it is in the ledger and not `Paid`, and the
      offered records carry the whole outstanding debt. */
  lemma PendingIncomeRecordsExact(income: seq<IncomeRecord>, payments: seq<PaymentTransaction>, x: IncomeRecord)
    ensures x in PendingIncomeRecords(income) <==> x in income && x.paymentStatus != Paid
    ensures OutstandingDebt(PendingIncomeRecords(income), payments) == OutstandingDebt(income, payments)
  {
    if x in income && x.paymentStatus != Paid {
      FilterKeeps(income, IsUnpaid, x);
    }
    FilterIdempotent(income, IsUnpaid);
  }

  /** A new income record is stored `Pending` under an id no payment
      references yet. Prepending it keeps every stored status consistent with
      its payments when its amount is positive; with an amount of zero or less
      the payments imply `Paid`, so the stored status is then inconsistent. */
  lemma NewIncomeKeepsStatusConsistent(records: seq<IncomeRecord>, payments: seq<PaymentTransaction>,
                                       f: IncomeForm, id: string, userId: string)
    requires StatusConsistent(records, payments)
    requires forall p :: p in payments ==> p.incomeRecordId != id
    ensures f.amount > 0 ==> StatusConsistent([IncomePayload(f).(id := id, userId := userId)] + records, payments)
    ensures f.amount <= 0 ==> !StatusConsistent([IncomePayload(f).(id := id, userId := userId)] + records, payments)
  {
    var row := IncomePayload(f).(id := id, userId := userId);
    forall p | p in payments ensures !PaysRecord(id)(p) {
    }
    FilterNonePass(payments, PaysRecord(id));
    assert PaidTotal(payments, id) == 0;
    assert row in [row] + records;
  }

  /** The label of the status badge. */
  function StatusLabel(s: PaymentStatus): (text: string)
    ensures text == "Ödendi" <==> s == Paid
    ensures text == "Kısmi Ödendi" <==> s == Partial
    ensures text == "Ödenmedi" <==> s == Pending
  {
    match s
    case Paid => "Ödendi"
    case Partial => "Kısmi Ödendi"
    case Pending => "Ödenmedi"
  }

  // ------------------------------------------------------------------ forms

  datatype IncomeForm = IncomeForm(
    clientId: string, serviceDescription: string, amount: int, incomeDate: string, notes: string)

  datatype PaymentForm = PaymentForm(
    incomeRecordId: string, amountPaid: int, paymentMethod: string,
    paymentDate: string, checkNumber: string, checkDueDate: string)

  datatype ExpenseForm = ExpenseForm(
    category: string, description: string, amount: int, expenseDate: string,
    supplier: string, paymentMethod: string, invoiceNumber: string)

  function DefaultIncomeForm(today: string): IncomeForm
  {
    IncomeForm("", "", 0, today, "")
  }

  function DefaultPaymentForm(today: string): PaymentForm
  {
    PaymentForm("", 0, "Cash", today, "", "")
  }

  function DefaultExpenseForm(today: string): ExpenseForm
  {
    ExpenseForm("Medications", "", 0, today, "", "Cash", "")
  }

  /** The income row sent to the ledger: the form's fields, no visit, in Turkish
      lira, `Pending`. The id and owner are left blank for the store to fill. */
  function IncomePayload(f: IncomeForm): (r: IncomeRecord)
    ensures r.visitId == None && r.currency == "TRY" && r.paymentStatus == Pending
    ensures r.clientId == f.clientId && r.amount == f.amount && r.incomeDate == f.incomeDate
    ensures r.serviceDescription == f.serviceDescription && r.notes == f.notes
  {
    IncomeRecord("", "", None, f.clientId, f.serviceDescription, f.amount, "TRY", f.incomeDate, Pending, f.notes)
  }

  /** The payment sent to the ledger: the form's fields, with the client copied
      from the income record it pays. */
  function PaymentPayload(f: PaymentForm, target: IncomeRecord): (p: PaymentTransaction)
    ensures p.clientId == target.clientId && p.incomeRecordId == f.incomeRecordId && p.amountPaid == f.amountPaid
    ensures p.paymentMethod == f.paymentMethod && p.paymentDate == f.paymentDate
    ensures p.checkNumber == f.checkNumber && p.checkDueDate == f.checkDueDate
  {
    PaymentTransaction("", "", f.incomeRecordId, target.clientId, f.amountPaid,
                       f.paymentMethod, f.paymentDate, f.checkNumber, f.checkDueDate)
  }

  /** The expense sent to the ledger: the form's fields, in Turkish lira. */
  function ExpensePayload(f: ExpenseForm): (e: Expense)
    ensures e.currency == "TRY" && e.category == f.category && e.amount == f.amount
    ensures e.description == f.description && e.expenseDate == f.expenseDate && e.supplier == f.supplier
    ensures e.paymentMethod == f.paymentMethod && e.invoiceNumber == f.invoiceNumber
  {
    Expense("", "", f.category, f.description, f.amount, "TRY", f.expenseDate,
            f.supplier, f.paymentMethod, f.invoiceNumber)
  }

  const SelectClientMessage: string := "Lütfen işletme seçin"
  const SelectRecordMessage: string := "Lütfen gelir kaydı seçin"
  const RecordNotFoundMessage: string := "Gelir kaydı bulunamadı"

  /** The screen's own state beside the ledger it shows. */
  class FinancialScreen {
    const ledger: Ledger
    var incomeForm: IncomeForm
    var paymentForm: PaymentForm
    var expenseForm: ExpenseForm
    var incomeDialogOpen: bool
    var paymentDialogOpen: bool
    var expenseDialogOpen: bool

    constructor (ledger: Ledger, today: string)
      ensures this.ledger == ledger
      ensures incomeForm == DefaultIncomeForm(today) && paymentForm == DefaultPaymentForm(today)
      ensures expenseForm == DefaultExpenseForm(today)
      ensures !incomeDialogOpen && !paymentDialogOpen && !expenseDialogOpen
    {
      this.ledger := ledger;
      incomeForm, paymentForm, expenseForm := DefaultIncomeForm(today), DefaultPaymentForm(today), DefaultExpenseForm(today);
      incomeDialogOpen, paymentDialogOpen, expenseDialogOpen := false, false, false;
    }

    /** `handleAddIncome`: without a client nothing is written; otherwise the
        payload goes to the ledger, and only a successful write resets the form
        and closes the dialog. */
    method HandleAddIncome(user: User, today: string, reply: Reply<string>) returns (toast: Toast)
      modifies this, ledger
      ensures old(incomeForm.clientId) == "" ==>
        toast == ToastError(SelectClientMessage) && unchanged(this) && unchanged(ledger)
      ensures old(incomeForm.clientId) != "" && user.Some? && reply.Ok? ==>
        && toast == ToastSuccess("Gelir kaydedildi")
        && ledger.income == [IncomePayload(old(incomeForm)).(id := reply.value, userId := user.value)] + old(ledger.income)
        && ledger.payments == old(ledger.payments) && ledger.expenses == old(ledger.expenses)
        && incomeForm == DefaultIncomeForm(today) && !incomeDialogOpen
      ensures old(incomeForm.clientId) != "" && !(user.Some? && reply.Ok?) ==>
        && toast == ToastError(if user.None? then NotAuthenticated else reply.message)
        && ledger.income == old(ledger.income) && ledger.payments == old(ledger.payments)
        && ledger.expenses == old(ledger.expenses)
        && incomeForm == old(incomeForm) && incomeDialogOpen == old(incomeDialogOpen)
      ensures paymentForm == old(paymentForm) && expenseForm == old(expenseForm)
      ensures paymentDialogOpen == old(paymentDialogOpen) && expenseDialogOpen == old(expenseDialogOpen)
      ensures ledger.loading == old(ledger.loading)
    {
      if incomeForm.clientId == "" {
        return ToastError(SelectClientMessage);
      }
      var res := ledger.AddIncomeRecord(user, IncomePayload(incomeForm), reply);
      if res.Failure? {
        return ToastError(res.error);
      }
      toast := ToastSuccess("Gelir kaydedildi");
      incomeForm := DefaultIncomeForm(today);
      incomeDialogOpen := false;
    }

    /** `handleAddPayment`: an empty selection, or a selection no income record
        has, stops before the ledger is called; otherwise the payment, with the
        record's client, goes to the ledger. */
    method HandleAddPayment(user: User, today: string, insertReply: Reply<string>, statusReply: Reply<IncomeRecord>)
      returns (toast: Toast, called: bool)
      modifies this, ledger
      ensures old(paymentForm.incomeRecordId) == "" ==>
        toast == ToastError(SelectRecordMessage) && !called && unchanged(this) && unchanged(ledger)
      ensures old(paymentForm.incomeRecordId) != "" && Find(old(ledger.income), HasId(old(paymentForm.incomeRecordId))).None? ==>
        toast == ToastError(RecordNotFoundMessage) && !called && unchanged(this) && unchanged(ledger)
      ensures called <==> old(paymentForm.incomeRecordId) != "" && Find(old(ledger.income), HasId(old(paymentForm.incomeRecordId))).Some?
      ensures called && toast.ToastSuccess? ==>
        var target := Find(old(ledger.income), HasId(old(paymentForm.incomeRecordId))).value;
        var sent := PaymentPayload(old(paymentForm), target);
        && user.Some? && insertReply.Ok?
        && ledger.payments == [sent.(id := insertReply.value, userId := user.value)] + old(ledger.payments)
        && ledger.income == (if statusReply.Ok? then ReplaceById(old(ledger.income), IncomeId, sent.incomeRecordId, statusReply.value) else old(ledger.income))
        && paymentForm == DefaultPaymentForm(today) && !paymentDialogOpen
      ensures called && toast.ToastSuccess? <==> called && user.Some? && insertReply.Ok? && statusReply.Ok?
      ensures called && !toast.ToastSuccess? ==>
        toast.ToastError? && ledger.payments == old(ledger.payments) && ledger.income == old(ledger.income)
        && paymentForm == old(paymentForm) && paymentDialogOpen == old(paymentDialogOpen)
      ensures ledger.expenses == old(ledger.expenses) && ledger.loading == old(ledger.loading)
      ensures incomeForm == old(incomeForm) && expenseForm == old(expenseForm)
      ensures incomeDialogOpen == old(incomeDialogOpen) && expenseDialogOpen == old(expenseDialogOpen)
    {
      called := false;
      if paymentForm.incomeRecordId == "" {
        return ToastError(SelectRecordMessage), called;
      }
      var target := Find(ledger.income, HasId(paymentForm.incomeRecordId));
      if target.None? {
        return ToastError(RecordNotFoundMessage), called;
      }
      called := true;
      var res, requested, persisted := ledger.AddPaymentTransaction(user, PaymentPayload(paymentForm, target.value), insertReply, statusReply);
      if res.Failure? {
        return ToastError(res.error), called;
      }
      toast := ToastSuccess("Ödeme kaydedildi");
      paymentForm := DefaultPaymentForm(today);
      paymentDialogOpen := false;
    }

    /** `handleAddExpense`: no guard; the payload goes to the ledger, and only a
        successful write resets the form and closes the dialog. */
    method HandleAddExpense(user: User, today: string, reply: Reply<string>) returns (toast: Toast)
      modifies this, ledger
      ensures user.Some? && reply.Ok? ==>
        && toast == ToastSuccess("Gider kaydedildi")
        && ledger.expenses == [ExpensePayload(old(expenseForm)).(id := reply.value, userId := user.value)] + old(ledger.expenses)
        && ledger.income == old(ledger.income) && ledger.payments == old(ledger.payments)
        && expenseForm == DefaultExpenseForm(today) && !expenseDialogOpen
      ensures !(user.Some? && reply.Ok?) ==>
        && toast == ToastError(if user.None? then NotAuthenticated else reply.message)
        && ledger.income == old(ledger.income) && ledger.payments == old(ledger.payments)
        && ledger.expenses == old(ledger.expenses)
        && expenseForm == old(expenseForm) && expenseDialogOpen == old(expenseDialogOpen)
      ensures incomeForm == old(incomeForm) && paymentForm == old(paymentForm)
      ensures incomeDialogOpen == old(incomeDialogOpen) && paymentDialogOpen == old(paymentDialogOpen)
      ensures ledger.loading == old(ledger.loading)
    {
      var res := ledger.AddExpense(user, ExpensePayload(expenseForm), reply);
      if res.Failure? {
        return ToastError(res.error);
      }
      toast := ToastSuccess("Gider kaydedildi");
      expenseForm := DefaultExpenseForm(today);
      expenseDialogOpen := false;
    }
  }
}
