/** The financial ledger hook (src/hooks/useFinancial.ts): income records
    (invoices), payment transactions applied to them, and expenses; the
    aggregates computed over them; and the state lists the hook keeps, updated
    after each backend request. Amounts are integers in minor currency units. */
module Financial {
  import opened Base
  import opened Seqs

  datatype PaymentStatus = Pending | Partial | Paid

  datatype IncomeRecord = IncomeRecord(
    id: string,
    userId: string,
    visitId: Option<string>,
    clientId: string,
    serviceDescription: string,
    amount: int,
    currency: string,
    incomeDate: string,
    paymentStatus: PaymentStatus,
    notes: string)

  datatype PaymentTransaction = PaymentTransaction(
    id: string,
    userId: string,
    incomeRecordId: string,
    clientId: string,
    amountPaid: int,
    paymentMethod: string,
    paymentDate: string,
    checkNumber: string,
    checkDueDate: string)

  datatype Expense = Expense(
    id: string,
    userId: string,
    category: string,
    description: string,
    amount: int,
    currency: string,
    expenseDate: string,
    supplier: string,
    paymentMethod: string,
    invoiceNumber: string)

  // ------------------------------------------------------ field projections

  function IncomeAmount(r: IncomeRecord): int { r.amount }
  function IncomeId(r: IncomeRecord): string { r.id }
  function ExpenseAmount(e: Expense): int { e.amount }
  function PaymentAmount(p: PaymentTransaction): int { p.amountPaid }
  predicate IsUnpaid(r: IncomeRecord) { r.paymentStatus != Paid }
  function HasId(id: string): IncomeRecord -> bool { (r: IncomeRecord) => r.id == id }
  function PaysRecord(id: string): PaymentTransaction -> bool { (p: PaymentTransaction) => p.incomeRecordId == id }
  function ExpenseCategory(e: Expense): string { e.category }
  function InCategory(c: string): Expense -> bool { KeyIs(ExpenseCategory, c) }

  // -------------------------------------------------------------- aggregates

  /** `getTotalIncome`: the invoiced amount over every record, whatever its status. */
  function TotalIncome(records: seq<IncomeRecord>): int
  {
    Sum(records, IncomeAmount)
  }

  /** `getTotalExpenses`. */
  function TotalExpenses(expenses: seq<Expense>): int
  {
    Sum(expenses, ExpenseAmount)
  }

  /** What has been paid against one income record: the sum of `amount_paid`
      over the payments whose `income_record_id` is `recordId`. */
  function PaidTotal(payments: seq<PaymentTransaction>, recordId: string): int
  {
    Sum(Filter(payments, PaysRecord(recordId)), PaymentAmount)
  }

  /** What is still owed on a record: its amount less the payments joined to it. */
  function Balance(payments: seq<PaymentTransaction>): IncomeRecord -> int
  {
    (r: IncomeRecord) => r.amount - PaidTotal(payments, r.id)
  }

  /** `getTotalDebtOutstanding`: the balances of the records not marked `Paid`. */
  function OutstandingDebt(records: seq<IncomeRecord>, payments: seq<PaymentTransaction>): int
  {
    Sum(Filter(records, IsUnpaid), Balance(payments))
  }

  /** The total `getExpensesByCategory` files under category `c`. */
  function CategoryTotal(expenses: seq<Expense>, c: string): int
  {
    Sum(Filter(expenses, InCategory(c)), ExpenseAmount)
  }

  function CategoryTotalOf(expenses: seq<Expense>): string -> int
  {
    KeyTotal(expenses, ExpenseCategory, ExpenseAmount)
  }

  /** The map `getExpensesByCategory` builds, one expense at a time in list
      order: an expense adds its amount to its category's entry, creating the
      entry at zero first. */
  function CategoryTotals(expenses: seq<Expense>): map<string, int>
  {
    if expenses == [] then map[]
    else
      var m := CategoryTotals(expenses[..|expenses| - 1]);
      var e := expenses[|expenses| - 1];
      m[e.category := (if e.category in m then m[e.category] else 0) + e.amount]
  }

  /** The map has a key for exactly the categories that occur. */
  lemma {:induction false} CategoryTotalsKeys(expenses: seq<Expense>)
    ensures forall c :: c in CategoryTotals(expenses) <==> exists j :: 0 <= j < |expenses| && expenses[j].category == c
  {
    if expenses != [] {
      var n := |expenses| - 1;
      CategoryTotalsKeys(expenses[..n]);
      assert forall j :: 0 <= j < n ==> expenses[..n][j] == expenses[j];
    }
  }

  /** Each key holds the summed amount of its category. */
  lemma {:induction false} CategoryTotalsValues(expenses: seq<Expense>)
    ensures forall c :: c in CategoryTotals(expenses) ==> CategoryTotals(expenses)[c] == CategoryTotal(expenses, c)
  {
    if expenses != [] {
      var n := |expenses| - 1;
      var e := expenses[n];
      var m := CategoryTotals(expenses[..n]);
      CategoryTotalsValues(expenses[..n]);
      CategoryTotalsStep(expenses, n);
      assert expenses[..n + 1] == expenses;
      if e.category !in m {
        CategoryTotalsKeys(expenses[..n]);
        CategoryTotalAbsent(expenses[..n], e.category);
      }
    }
  }

  /** `getExpensesByCategory`: a key for exactly the categories that occur,
      each holding that category's summed amount. */
  method ExpensesByCategory(expenses: seq<Expense>) returns (categories: map<string, int>)
    ensures categories == CategoryTotals(expenses)
    ensures forall c :: c in categories <==> exists j :: 0 <= j < |expenses| && expenses[j].category == c
    ensures forall c :: c in categories ==> categories[c] == CategoryTotal(expenses, c)
  {
    categories := map[];
    for i := 0 to |expenses|
      invariant categories == CategoryTotals(expenses[..i])
    {
      var e := expenses[i];
      var previous := if e.category in categories then categories[e.category] else 0;
      categories := categories[e.category := previous + e.amount];
      assert expenses[..i + 1][..i] == expenses[..i];
    }
    assert expenses[..|expenses|] == expenses;
    CategoryTotalsKeys(expenses);
    CategoryTotalsValues(expenses);
  }

  lemma CategoryTotalsStep(expenses: seq<Expense>, i: nat)
    requires i < |expenses|
    ensures forall c :: CategoryTotal(expenses[..i + 1], c)
                         == CategoryTotal(expenses[..i], c) + (if expenses[i].category == c then expenses[i].amount else 0)
  {
    assert expenses[..i + 1] == expenses[..i] + [expenses[i]];
    forall c ensures CategoryTotal(expenses[..i] + [expenses[i]], c) ==
      CategoryTotal(expenses[..i], c) + (if expenses[i].category == c then expenses[i].amount else 0) {
      CategoryTotalSnoc(expenses[..i], expenses[i], c);
    }
  }

  /** A category no expense carries totals zero. */
  lemma CategoryTotalAbsent(expenses: seq<Expense>, c: string)
    requires forall j :: 0 <= j < |expenses| ==> expenses[j].category != c
    ensures CategoryTotal(expenses, c) == 0
  {
    forall x | x in expenses ensures !InCategory(c)(x) {
      assert KeyIs(ExpenseCategory, c)(x) == (ExpenseCategory(x) == c);
    }
    FilterNonePass(expenses, InCategory(c));
  }

  lemma CategoryTotalSnoc(expenses: seq<Expense>, e: Expense, c: string)
    ensures CategoryTotal(expenses + [e], c) == CategoryTotal(expenses, c) + (if e.category == c then e.amount else 0)
  {
    FilterConcat(expenses, [e], InCategory(c));
    SumConcat(Filter(expenses, InCategory(c)), Filter([e], InCategory(c)), ExpenseAmount);
    assert [e][1..] == [];
    assert KeyIs(ExpenseCategory, c)(e) == (ExpenseCategory(e) == c);
  }

  /** The per-category totals, over any duplicate-free list of keys that covers
      every category present, add up to the total expenses. */
  lemma {:induction false} CategoryTotalsSumToTotal(expenses: seq<Expense>, keys: seq<string>)
    requires NoDuplicates(keys)
    requires forall e :: e in expenses ==> e.category in keys
    ensures Sum(keys, CategoryTotalOf(expenses)) == TotalExpenses(expenses)
  {
    SumByKey(expenses, ExpenseCategory, ExpenseAmount, keys);
  }

  // ------------------------------------------------------- status derivation

  /** The status a record takes once `newTotal` has been paid against `amount`:
      `Paid` from the full amount on (an overpayment is `Paid` too), `Partial`
      for a positive part, `Pending` otherwise. */
  function DeriveStatus(newTotal: int, amount: int): (s: PaymentStatus)
    ensures s == Paid <==> newTotal >= amount
    ensures s == Partial <==> 0 < newTotal < amount
    ensures s == Pending <==> newTotal <= 0 && newTotal < amount
  {
    if newTotal >= amount then Paid else if newTotal > 0 then Partial else Pending
  }

  function StatusRank(s: PaymentStatus): nat
  {
    match s
    case Pending => 0
    case Partial => 1
    case Paid => 2
  }

  /** A further non-negative payment never moves a record's derived status backwards. */
  lemma StatusNeverRegresses(paid: int, more: int, amount: int)
    requires more >= 0
    ensures StatusRank(DeriveStatus(paid, amount)) <= StatusRank(DeriveStatus(paid + more, amount))
  {
  }

  /** The invariant the hook is meant to keep: every record's stored status is
      the one its joined payments imply. */
  ghost predicate StatusConsistent(records: seq<IncomeRecord>, payments: seq<PaymentTransaction>)
  {
    forall r :: r in records ==> r.paymentStatus == DeriveStatus(PaidTotal(payments, r.id), r.amount)
  }

  /** The status `addPaymentTransaction` writes for `record`: derived from the
      payments held before the new one, plus the new amount. */
  function NewStatus(payments: seq<PaymentTransaction>, record: IncomeRecord, payment: PaymentTransaction): PaymentStatus
  {
    DeriveStatus(PaidTotal(payments, payment.incomeRecordId) + payment.amountPaid, record.amount)
  }

  /** The record `addPaymentTransaction` finds for a payment in its snapshot. */
  function TargetRecord(records: seq<IncomeRecord>, payment: PaymentTransaction): Option<IncomeRecord>
  {
    Find(records, HasId(payment.incomeRecordId))
  }

  /** The income and payment lists after a payment when both writes succeed and
      the store answers the status write with the record carrying the new status. */
  function ApplyPayment(records: seq<IncomeRecord>, payments: seq<PaymentTransaction>, payment: PaymentTransaction)
    : (seq<IncomeRecord>, seq<PaymentTransaction>)
  {
    var target := TargetRecord(records, payment);
    if target.None? then (records, [payment] + payments)
    else
      var updated := target.value.(paymentStatus := NewStatus(payments, target.value, payment));
      (ReplaceById(records, IncomeId, payment.incomeRecordId, updated), [payment] + payments)
  }

  lemma PaidTotalPrepend(payments: seq<PaymentTransaction>, p: PaymentTransaction, id: string)
    ensures PaidTotal([p] + payments, id) == (if p.incomeRecordId == id then p.amountPaid else 0) + PaidTotal(payments, id)
  {
    assert ([p] + payments)[1..] == payments;
    var f := Filter(payments, PaysRecord(id));
    assert ([p] + f)[1..] == f;
  }

  /** Applying a payment keeps every stored status equal to the one implied by the payments. */
  lemma PaymentKeepsStatusConsistent(records: seq<IncomeRecord>, payments: seq<PaymentTransaction>, payment: PaymentTransaction)
    requires StatusConsistent(records, payments)
    ensures StatusConsistent(ApplyPayment(records, payments, payment).0, ApplyPayment(records, payments, payment).1)
  {
    var records' := ApplyPayment(records, payments, payment).0;
    forall r | r in records'
      ensures r.paymentStatus == DeriveStatus(PaidTotal([payment] + payments, r.id), r.amount)
    {
      var i :| 0 <= i < |records'| && records'[i] == r;
      PaymentKeepsOneStatus(records, payments, payment, i);
    }
  }

  lemma PaymentKeepsOneStatus(records: seq<IncomeRecord>, payments: seq<PaymentTransaction>, payment: PaymentTransaction, i: int)
    requires StatusConsistent(records, payments)
    requires 0 <= i < |ApplyPayment(records, payments, payment).0|
    ensures var r := ApplyPayment(records, payments, payment).0[i];
      r.paymentStatus == DeriveStatus(PaidTotal([payment] + payments, r.id), r.amount)
  {
    var id := payment.incomeRecordId;
    var target := TargetRecord(records, payment);
    var r := ApplyPayment(records, payments, payment).0[i];
    PaidTotalPrepend(payments, payment, r.id);
    if target.None? {
      assert r == records[i] && r in records;
      assert !HasId(id)(records[i]);
    } else if records[i].id == id {
      assert HasId(id)(target.value);
    } else {
      assert r == records[i] && r in records;
    }
  }

  // ----------------------------------------------------------- debt lemmas

  lemma OutstandingDebtConcat(a: seq<IncomeRecord>, b: seq<IncomeRecord>, payments: seq<PaymentTransaction>)
    ensures OutstandingDebt(a + b, payments) == OutstandingDebt(a, payments) + OutstandingDebt(b, payments)
  {
    FilterConcat(a, b, IsUnpaid);
    SumConcat(Filter(a, IsUnpaid), Filter(b, IsUnpaid), Balance(payments));
  }

  /** One record's share of the outstanding debt: nothing when it is stored as
      `Paid`, its amount less its payments otherwise, so the full amount when no
      payment is joined to it. */
  lemma RecordDebtShare(r: IncomeRecord, rest: seq<IncomeRecord>, payments: seq<PaymentTransaction>)
    ensures OutstandingDebt([r] + rest, payments) ==
      (if r.paymentStatus == Paid then 0 else r.amount - PaidTotal(payments, r.id)) + OutstandingDebt(rest, payments)
    ensures (forall p :: p in payments ==> p.incomeRecordId != r.id) ==>
      OutstandingDebt([r] + rest, payments) ==
        (if r.paymentStatus == Paid then 0 else r.amount) + OutstandingDebt(rest, payments)
  {
    OutstandingDebtConcat([r], rest, payments);
    assert [r][1..] == [];
  }

  /** On a ledger whose statuses are consistent the outstanding debt is never
      negative, and it is zero exactly when every record is `Paid`. */
  lemma ConsistentLedgerDebt(records: seq<IncomeRecord>, payments: seq<PaymentTransaction>)
    requires StatusConsistent(records, payments)
    ensures OutstandingDebt(records, payments) >= 0
    ensures OutstandingDebt(records, payments) == 0 <==> forall r :: r in records ==> r.paymentStatus == Paid
  {
    var open := Filter(records, IsUnpaid);
    forall r | r in open ensures Balance(payments)(r) > 0 {
      assert r in records;
    }
    SumPositive(open, Balance(payments));
    if exists r :: r in records && r.paymentStatus != Paid {
      var r :| r in records && r.paymentStatus != Paid;
      FilterKeeps(records, IsUnpaid, r);
    }
  }

  /** Income splits into what is stored as `Paid` and what is not; both count. */
  lemma IncomeCountsEveryStatus(records: seq<IncomeRecord>)
    ensures TotalIncome(records) == TotalIncome(Filter(records, IsUnpaid)) + TotalIncome(Filter(records, Not(IsUnpaid)))
  {
    SumFilterPartition(records, IsUnpaid, IncomeAmount);
  }

  /** A worked example: an invoice of 1000 paid with 400 becomes
      `Partial` with 600 outstanding; a further 600 makes it `Paid` and clears it. */
  lemma TwoPaymentsSettleInvoice(a: IncomeRecord, p1: PaymentTransaction, p2: PaymentTransaction)
    requires a.amount == 1000 && a.paymentStatus == Pending
    requires p1.incomeRecordId == a.id && p1.amountPaid == 400
    requires p2.incomeRecordId == a.id && p2.amountPaid == 600
    ensures ApplyPayment([a], [], p1).0 == [a.(paymentStatus := Partial)]
    ensures OutstandingDebt(ApplyPayment([a], [], p1).0, [p1]) == 600
    ensures ApplyPayment([a.(paymentStatus := Partial)], [p1], p2).0 == [a.(paymentStatus := Paid)]
    ensures OutstandingDebt([a.(paymentStatus := Paid)], [p2, p1]) == 0
  {
    assert TargetRecord([a], p1) == Some(a);
    assert PaidTotal([], a.id) == 0;
    PaidTotalPrepend([], p1, a.id);
    RecordDebtShare(a.(paymentStatus := Partial), [], [p1]);
    assert [a.(paymentStatus := Partial)] + [] == [a.(paymentStatus := Partial)];
    assert TargetRecord([a.(paymentStatus := Partial)], p2) == Some(a.(paymentStatus := Partial));
    RecordDebtShare(a.(paymentStatus := Paid), [], [p2, p1]);
    assert [a.(paymentStatus := Paid)] + [] == [a.(paymentStatus := Paid)];
  }

  // ---------------------------------------------------------- query scoping

  /** The conditions of the income and expense queries: always the owner,
      then the lower and upper date bounds when they are given. */
  function RangeConditions(userId: string, dateColumn: string, startDate: string, endDate: string): (q: seq<Condition>)
    ensures |q| == 1 + (if startDate != "" then 1 else 0) + (if endDate != "" then 1 else 0)
    ensures q[0] == Eq("user_id", userId)
    ensures AtLeast(dateColumn, startDate) in q <==> startDate != ""
    ensures AtMost(dateColumn, endDate) in q <==> endDate != ""
    ensures forall c :: c in q ==> c == Eq("user_id", userId) || c == AtLeast(dateColumn, startDate) || c == AtMost(dateColumn, endDate)
  {
    [Eq("user_id", userId)]
      + (if startDate != "" then [AtLeast(dateColumn, startDate)] else [])
      + (if endDate != "" then [AtMost(dateColumn, endDate)] else [])
  }

  // ------------------------------------------------------------ hook state

  /** The state `useFinancial` keeps: its three lists, and the loading and error flags. */
  class Ledger {
    var income: seq<IncomeRecord>
    var payments: seq<PaymentTransaction>
    var expenses: seq<Expense>
    var loading: bool
    var error: Option<string>

    constructor ()
      ensures income == [] && payments == [] && expenses == []
      ensures !loading && error == None
    {
      income, payments, expenses := [], [], [];
      loading, error := false, None;
    }

    /** `fetchFinancialData`: without a user nothing happens; otherwise the
        three queries run in turn and the lists are replaced only when all three
        succeed; the first failure is recorded as the error. */
    method FetchFinancialData(user: User, startDate: string, endDate: string,
                              incomeReply: Reply<seq<IncomeRecord>>,
                              expenseReply: Reply<seq<Expense>>,
                              paymentReply: Reply<seq<PaymentTransaction>>)
      returns (incomeQuery: Option<seq<Condition>>, expenseQuery: Option<seq<Condition>>)
      modifies this
      ensures user.None? ==> unchanged(this) && incomeQuery == None && expenseQuery == None
      ensures user.Some? ==> !loading
      ensures user.Some? ==> incomeQuery == Some(RangeConditions(user.value, "income_date", startDate, endDate))
      ensures user.Some? ==> expenseQuery == (if incomeReply.Err? then None else Some(RangeConditions(user.value, "expense_date", startDate, endDate)))
      ensures user.Some? && incomeReply.Ok? && expenseReply.Ok? && paymentReply.Ok? ==>
        income == incomeReply.value && expenses == expenseReply.value && payments == paymentReply.value && error == None
      ensures user.Some? && !(incomeReply.Ok? && expenseReply.Ok? && paymentReply.Ok?) ==>
        income == old(income) && expenses == old(expenses) && payments == old(payments)
        && error == Some(if incomeReply.Err? then incomeReply.message
                         else if expenseReply.Err? then expenseReply.message
                         else paymentReply.message)
    {
      incomeQuery, expenseQuery := None, None;
      if user.None? {
        return;
      }
      loading, error := true, None;
      incomeQuery := Some(RangeConditions(user.value, "income_date", startDate, endDate));
      if incomeReply.Err? {
        error := Some(incomeReply.message);
      } else {
        expenseQuery := Some(RangeConditions(user.value, "expense_date", startDate, endDate));
        if expenseReply.Err? {
          error := Some(expenseReply.message);
        } else if paymentReply.Err? {
          error := Some(paymentReply.message);
        } else {
          income, expenses, payments := incomeReply.value, expenseReply.value, paymentReply.value;
        }
      }
      loading := false;
    }

    /** `addIncomeRecord`: the stored row (with the server's id and the owner)
        is prepended; a rejected insert records the error and changes no list. */
    method AddIncomeRecord(user: User, data: IncomeRecord, reply: Reply<string>) returns (res: Result<IncomeRecord>)
      modifies this
      ensures user.None? ==> res == Failure(NotAuthenticated) && unchanged(this)
      ensures user.Some? && reply.Err? ==>
        res == Failure(reply.message) && error == Some(reply.message)
        && income == old(income) && payments == old(payments) && expenses == old(expenses) && loading == old(loading)
      ensures user.Some? && reply.Ok? ==>
        var row := data.(id := reply.value, userId := user.value);
        res == Success(row) && income == [row] + old(income)
        && payments == old(payments) && expenses == old(expenses) && error == old(error) && loading == old(loading)
    {
      if user.None? {
        return Failure(NotAuthenticated);
      }
      if reply.Err? {
        error := Some(reply.message);
        return Failure(reply.message);
      }
      var row := data.(id := reply.value, userId := user.value);
      income := [row] + income;
      res := Success(row);
    }

    /** `updateIncomeRecord`: every record with the id is replaced by the row the
        store returns; the length and all other records stay as they were. */
    method UpdateIncomeRecord(user: User, id: string, reply: Reply<IncomeRecord>) returns (res: Result<IncomeRecord>)
      modifies this
      ensures user.None? ==> res == Failure(NotAuthenticated) && unchanged(this)
      ensures user.Some? && reply.Err? ==>
        res == Failure(reply.message) && error == Some(reply.message)
        && income == old(income) && payments == old(payments) && expenses == old(expenses) && loading == old(loading)
      ensures user.Some? && reply.Ok? ==>
        res == Success(reply.value) && income == ReplaceById(old(income), IncomeId, id, reply.value)
        && payments == old(payments) && expenses == old(expenses) && error == old(error) && loading == old(loading)
    {
      if user.None? {
        return Failure(NotAuthenticated);
      }
      if reply.Err? {
        error := Some(reply.message);
        return Failure(reply.message);
      }
      income := ReplaceById(income, IncomeId, id, reply.value);
      res := Success(reply.value);
    }

    /** `addPaymentTransaction`. Two writes in sequence, not atomic: the payment
        insert, then, when the referenced record is in the snapshot, the status
        write. `persisted` tells whether the store now holds the payment;
        `requested` is the status sent in the second write. The payment is
        prepended locally only when every write it needed succeeded. */
    method AddPaymentTransaction(user: User, data: PaymentTransaction,
                                 insertReply: Reply<string>, statusReply: Reply<IncomeRecord>)
      returns (res: Result<PaymentTransaction>, requested: Option<PaymentStatus>, persisted: bool)
      modifies this
      ensures user.None? ==> res == Failure(NotAuthenticated) && requested == None && !persisted && unchanged(this)
      ensures user.Some? && insertReply.Err? ==>
        res == Failure(insertReply.message) && requested == None && !persisted && error == Some(insertReply.message)
        && income == old(income) && payments == old(payments) && expenses == old(expenses) && loading == old(loading)
      ensures user.Some? && insertReply.Ok? ==>
        var row := data.(id := insertReply.value, userId := user.value);
        var target := TargetRecord(old(income), data);
        && persisted
        && expenses == old(expenses) && loading == old(loading)
        && requested == (if target.None? then None else Some(NewStatus(old(payments), target.value, data)))
        && (target.None? ==>
              res == Success(row) && income == old(income) && payments == [row] + old(payments) && error == old(error))
        && (target.Some? && statusReply.Err? ==>
              res == Failure(statusReply.message) && error == Some(statusReply.message)
              && income == old(income) && payments == old(payments))
        && (target.Some? && statusReply.Ok? ==>
              res == Success(row) && payments == [row] + old(payments) && error == old(error)
              && income == ReplaceById(old(income), IncomeId, data.incomeRecordId, statusReply.value))
      ensures user.Some? && insertReply.Ok? &&
              (TargetRecord(old(income), data).Some? ==>
                 statusReply == Ok(TargetRecord(old(income), data).value.(paymentStatus := requested.value))) ==>
        (income, payments) == ApplyPayment(old(income), old(payments), data.(id := insertReply.value, userId := user.value))
    {
      requested, persisted := None, false;
      if user.None? {
        return Failure(NotAuthenticated), requested, persisted;
      }
      if insertReply.Err? {
        error := Some(insertReply.message);
        return Failure(insertReply.message), requested, persisted;
      }
      persisted := true;
      var row := data.(id := insertReply.value, userId := user.value);
      var totalPaid := PaidTotal(payments, data.incomeRecordId);
      var target := Find(income, HasId(data.incomeRecordId));
      if target.Some? {
        var status := DeriveStatus(totalPaid + data.amountPaid, target.value.amount);
        requested := Some(status);
        var updated := UpdateIncomeRecord(user, data.incomeRecordId, statusReply);
        if updated.Failure? {
          error := Some(updated.error);
          return Failure(updated.error), requested, persisted;
        }
      }
      payments := [row] + payments;
      res := Success(row);
    }

    /** `addExpense`: the stored row is prepended. */
    method AddExpense(user: User, data: Expense, reply: Reply<string>) returns (res: Result<Expense>)
      modifies this
      ensures user.None? ==> res == Failure(NotAuthenticated) && unchanged(this)
      ensures user.Some? && reply.Err? ==>
        res == Failure(reply.message) && error == Some(reply.message)
        && income == old(income) && payments == old(payments) && expenses == old(expenses) && loading == old(loading)
      ensures user.Some? && reply.Ok? ==>
        var row := data.(id := reply.value, userId := user.value);
        res == Success(row) && expenses == [row] + old(expenses)
        && income == old(income) && payments == old(payments) && error == old(error) && loading == old(loading)
    {
      if user.None? {
        return Failure(NotAuthenticated);
      }
      if reply.Err? {
        error := Some(reply.message);
        return Failure(reply.message);
      }
      var row := data.(id := reply.value, userId := user.value);
      expenses := [row] + expenses;
      res := Success(row);
    }
  }
}
