/** The payments tab of a job: paid, planned and remaining totals, the type
    label, and the request that adds a payment. */
module JobPaymentsTab {
  import opened Wrappers
  import opened Types
  import opened Folds
  import opened Text

  function Amount(p: JobPayment): real {
    p.amount
  }

  /** A payment's contribution to the paid total: its amount if it is marked paid. */
  function PaidAmount(p: JobPayment): real {
    if p.isPaid then p.amount else 0.0
  }

  predicate IsPaid(p: JobPayment) {
    p.isPaid
  }

  /** `totalPaid`: the amounts of the payments marked paid, that is, the
      amounts of `filter(p => p.isPaid)`. */
  function TotalPaid(ps: seq<JobPayment>): (r: real)
    ensures r == TotalPlanned(Filter(ps, IsPaid))
    ensures (forall i :: 0 <= i < |ps| ==> ps[i].amount >= 0.0) ==> r >= 0.0
  {
    PaidSumIsFilteredSum(ps);
    SumNonNegative(ps, PaidAmount);
    Sum(ps, PaidAmount)
  }

  /** `totalPlanned`: the amounts of all payments, paid or not. */
  function TotalPlanned(ps: seq<JobPayment>): (r: real)
    ensures (forall i :: 0 <= i < |ps| ==> ps[i].amount >= 0.0) ==> r >= 0.0
  {
    SumNonNegative(ps, Amount);
    Sum(ps, Amount)
  }

  /** `remaining`: what is still owed against the paid total, never below 0. */
  function Remaining(finalAmount: real, ps: seq<JobPayment>): (r: real)
    ensures r >= 0.0
    ensures r >= finalAmount - TotalPaid(ps)
    ensures r == 0.0 || r == finalAmount - TotalPaid(ps)
  {
    Max(finalAmount - TotalPaid(ps), 0.0)
  }

  /** Summing the paid amounts over all payments is summing the amounts
      over the payments marked paid. */
  lemma {:induction false} PaidSumIsFilteredSum(ps: seq<JobPayment>)
    ensures Sum(ps, PaidAmount) == Sum(Filter(ps, IsPaid), Amount)
    decreases |ps|
  {
    if ps != [] {
      var ps' := ps[..|ps| - 1];
      var p := ps[|ps| - 1];
      PaidSumIsFilteredSum(ps');
      var tail := if IsPaid(p) then [p] else [];
      assert Filter(ps, IsPaid) == Filter(ps', IsPaid) + tail;
      SumAppend(Filter(ps', IsPaid), tail, Amount);
    }
  }

  /** With no negative amounts, the paid total never exceeds the planned total. */
  lemma PaidAtMostPlanned(ps: seq<JobPayment>)
    requires forall i :: 0 <= i < |ps| ==> ps[i].amount >= 0.0
    ensures TotalPaid(ps) <= TotalPlanned(ps)
  {
    SumMonotone(ps, PaidAmount, Amount);
  }

  /** Adding a payment raises the planned total by its amount, and the paid
      total only if it is marked paid. */
  lemma AddPaymentTotals(ps: seq<JobPayment>, p: JobPayment)
    ensures TotalPlanned(ps + [p]) == TotalPlanned(ps) + p.amount
    ensures TotalPaid(ps + [p]) == TotalPaid(ps) + (if p.isPaid then p.amount else 0.0)
  {
    SumAppend(ps, [p], Amount);
    SumAppend(ps, [p], PaidAmount);
  }

  function ExamplePayment(amount: real, isPaid: bool): JobPayment {
    JobPayment(0, 0, amount, 1, "", None, None, isPaid, None, None, None)
  }

  /** A job of 10000 with 4000 paid and 2000 pending: paid 4000, planned 6000, remaining 6000. */
  lemma ExampleTotals()
    ensures var ps := [ExamplePayment(4000.0, true), ExamplePayment(2000.0, false)];
      TotalPaid(ps) == 4000.0 && TotalPlanned(ps) == 6000.0 && Remaining(10000.0, ps) == 6000.0
  {
    var ps := [ExamplePayment(4000.0, true), ExamplePayment(2000.0, false)];
    AddPaymentTotals([], ps[0]);
    assert [] + [ps[0]] == [ps[0]];
    AddPaymentTotals([ps[0]], ps[1]);
    assert [ps[0]] + [ps[1]] == ps;
  }

  /** The label shown in the type column, "-" when the code has none. */
  function PaymentTypeLabel(v: int): (r: string)
    ensures 1 <= v <= 5 ==> r == PaymentTypeLabels[v]
    ensures !(1 <= v <= 5) ==> r == "-"
  {
    if v in PaymentTypeLabels && PaymentTypeLabels[v] != "" then PaymentTypeLabels[v] else "-"
  }

  // ---------------------------------------------------------------------
  // The add-payment request
  // ---------------------------------------------------------------------

  /** The validated form values; dates are already ISO strings here. */
  datatype PaymentFormValues = PaymentFormValues(
    amount: real,
    paymentType: PaymentType,
    paymentDate: Option<string>,
    installmentCount: Option<int>,
    dueDate: Option<string>,
    isPaid: Option<bool>,
    notes: Option<string>,
    receiptNumber: Option<string>)

  datatype PaymentPayload = PaymentPayload(
    amount: real,
    paymentType: PaymentType,
    paymentDate: Option<string>,
    installmentCount: Option<int>,
    dueDate: Option<string>,
    isPaid: bool,
    notes: Option<string>,
    receiptNumber: Option<string>)

  /** The body posted to add a payment: the form's fields, with the status
      defaulting to pending when none was chosen. */
  function AddPayment(v: PaymentFormValues): (r: PaymentPayload)
    ensures r.isPaid <==> v.isPaid == Some(true)
    ensures r.amount == v.amount && r.paymentType == v.paymentType
    ensures r.paymentDate == v.paymentDate && r.dueDate == v.dueDate
    ensures r.installmentCount == v.installmentCount && r.notes == v.notes && r.receiptNumber == v.receiptNumber
  {
    PaymentPayload(v.amount, v.paymentType, v.paymentDate, v.installmentCount, v.dueDate,
                   v.isPaid.GetOr(false), v.notes, v.receiptNumber)
  }

  /** The payment a payload becomes once the server stores it. */
  function Stored(id: int, jobId: int, r: PaymentPayload): (p: JobPayment)
    ensures p.amount == r.amount && p.isPaid == r.isPaid
  {
    JobPayment(id, jobId, r.amount, r.paymentType, r.paymentDate.GetOr(""), r.installmentCount,
               r.dueDate, r.isPaid, None, r.notes, r.receiptNumber)
  }

  /** A payment added without choosing a status leaves the paid total as it was
      and raises the remaining amount's basis only through the planned total. */
  lemma UnchosenStatusIsNotPaid(ps: seq<JobPayment>, v: PaymentFormValues, id: int, jobId: int)
    requires v.isPaid.None?
    ensures TotalPaid(ps + [Stored(id, jobId, AddPayment(v))]) == TotalPaid(ps)
    ensures TotalPlanned(ps + [Stored(id, jobId, AddPayment(v))]) == TotalPlanned(ps) + v.amount
  {
    AddPaymentTotals(ps, Stored(id, jobId, AddPayment(v)));
  }
}
