/** The expenses tab of a job: the expense total, the type label, and the
    request that adds an expense. */
module JobExpensesTab {
  import opened Wrappers
  import opened Types
  import opened Folds

  function ExpenseAmount(e: JobExpense): real {
    e.amount
  }

  /** `totalExpenses`: the amounts of all expenses. */
  function TotalExpenses(es: seq<JobExpense>): (r: real)
    ensures es == [] ==> r == 0.0
    ensures (forall i :: 0 <= i < |es| ==> es[i].amount >= 0.0) ==> r >= 0.0
  {
    SumNonNegative(es, ExpenseAmount);
    Sum(es, ExpenseAmount)
  }

  /** The total does not depend on the order in which the expenses are listed. */
  lemma TotalExpensesOrderFree(es: seq<JobExpense>, fs: seq<JobExpense>)
    requires multiset(es) == multiset(fs)
    ensures TotalExpenses(es) == TotalExpenses(fs)
  {
    SumPermutation(es, fs, ExpenseAmount);
  }

  /** Appending an expense raises the total by exactly its amount. */
  lemma AddExpenseTotal(es: seq<JobExpense>, e: JobExpense)
    ensures TotalExpenses(es + [e]) == TotalExpenses(es) + e.amount
  {
    SumAppend(es, [e], ExpenseAmount);
  }

  /** The total of two lists shown together is the sum of their totals. */
  lemma TotalExpensesSplit(es: seq<JobExpense>, fs: seq<JobExpense>)
    ensures TotalExpenses(es + fs) == TotalExpenses(es) + TotalExpenses(fs)
  {
    SumAppend(es, fs, ExpenseAmount);
  }

  /** The label shown in the type column, "-" when the code has none. */
  function ExpenseTypeLabel(v: int): (r: string)
    ensures 1 <= v <= 6 ==> r == ExpenseTypeLabels[v]
    ensures !(1 <= v <= 6) ==> r == "-"
  {
    if v in ExpenseTypeLabels && ExpenseTypeLabels[v] != "" then ExpenseTypeLabels[v] else "-"
  }

  /** The validated form values; the date is already an ISO string here. */
  datatype ExpenseFormValues = ExpenseFormValues(
    expenseType: ExpenseType,
    description: string,
    amount: real,
    expenseDate: Option<string>,
    notes: Option<string>,
    receiptNumber: Option<string>)

  datatype ExpensePayload = ExpensePayload(
    expenseType: ExpenseType,
    description: string,
    amount: real,
    expenseDate: Option<string>,
    notes: Option<string>,
    receiptNumber: Option<string>)

  /** The body posted to add an expense: exactly the six form fields. */
  function AddExpense(v: ExpenseFormValues): (r: ExpensePayload)
    ensures r.expenseType == v.expenseType && r.description == v.description && r.amount == v.amount
    ensures r.expenseDate == v.expenseDate && r.notes == v.notes && r.receiptNumber == v.receiptNumber
  {
    ExpensePayload(v.expenseType, v.description, v.amount, v.expenseDate, v.notes, v.receiptNumber)
  }
}
