/** The job detail page: the headline figures computed from the job and its
    materials, payments and expenses, and the status-change dialog. */
module JobDetail {
  import opened Wrappers
  import opened Types
  import opened Folds
  import opened JobMaterialsTab
  import opened JobPaymentsTab
  import opened JobExpensesTab

  /** The figures shown in the statistic cards. */
  datatype Figures = Figures(
    totalMaterialCost: real,
    totalPayments: real,
    totalExpenses: real,
    remainingPayment: real,
    netProfit: real,
    totalCost: real)

  /** The material cost counts used quantities at the effective price; every
      payment counts towards the payments total whether it is paid or not; the
      remaining payment and the net profit are not floored. */
  function DetailFigures(job: Job, materials: seq<JobMaterial>, payments: seq<JobPayment>, expenses: seq<JobExpense>): (r: Figures)
    ensures r.totalMaterialCost == UsedCost(materials)
    ensures r.totalPayments == TotalPlanned(payments)
    ensures r.totalExpenses == TotalExpenses(expenses)
    ensures r.remainingPayment + r.totalPayments == job.finalAmount
    ensures r.totalCost == r.totalMaterialCost + r.totalExpenses
    ensures r.netProfit + r.totalCost == job.finalAmount
  {
    var materialCost := UsedCost(materials);
    var paymentsTotal := TotalPlanned(payments);
    var expensesTotal := TotalExpenses(expenses);
    Figures(materialCost, paymentsTotal, expensesTotal,
            job.finalAmount - paymentsTotal,
            job.finalAmount - materialCost - expensesTotal,
            materialCost + expensesTotal)
  }

  /** A job with no materials, payments or expenses has nothing to subtract:
      its remaining payment and its net profit are both its final amount. */
  lemma EmptyJobFigures(job: Job)
    ensures var r := DetailFigures(job, [], [], []);
      r.totalMaterialCost == 0.0 && r.totalPayments == 0.0 && r.totalExpenses == 0.0
      && r.remainingPayment == job.finalAmount && r.netProfit == job.finalAmount
  {
  }

  /** Recording another expense lowers the net profit by its amount. */
  lemma ExpenseLowersNetProfit(job: Job, ms: seq<JobMaterial>, ps: seq<JobPayment>, es: seq<JobExpense>, e: JobExpense)
    ensures DetailFigures(job, ms, ps, es + [e]).netProfit == DetailFigures(job, ms, ps, es).netProfit - e.amount
  {
    AddExpenseTotal(es, e);
  }

  /** The page's remaining payment is never above the payments tab's floored
      figure when amounts are not negative: pending payments already count as
      received on this page. */
  lemma DetailRemainingAtMostTabRemaining(job: Job, ms: seq<JobMaterial>, ps: seq<JobPayment>, es: seq<JobExpense>)
    requires forall i :: 0 <= i < |ps| ==> ps[i].amount >= 0.0
    ensures DetailFigures(job, ms, ps, es).remainingPayment <= Remaining(job.finalAmount, ps)
  {
    PaidAtMostPlanned(ps);
  }

  /** The two figures differ: for a job of 1000 with one pending payment of
      1000 the page shows 0 remaining while the payments tab shows 1000. */
  lemma RemainingFiguresDiffer(job: Job)
    requires job.finalAmount == 1000.0
    ensures var ps := [ExamplePayment(1000.0, false)];
      DetailFigures(job, [], ps, []).remainingPayment == 0.0 && Remaining(job.finalAmount, ps) == 1000.0
  {
    AddPaymentTotals([], ExamplePayment(1000.0, false));
    assert [] + [ExamplePayment(1000.0, false)] == [ExamplePayment(1000.0, false)];
  }

  /** Overpayment shows as a negative remaining payment on this page. */
  lemma RemainingMayBeNegative(job: Job)
    requires job.finalAmount == 100.0
    ensures DetailFigures(job, [], [ExamplePayment(150.0, true)], []).remainingPayment == -50.0
  {
    AddPaymentTotals([], ExamplePayment(150.0, true));
    assert [] + [ExamplePayment(150.0, true)] == [ExamplePayment(150.0, true)];
  }

  /** When every payment is marked paid and they do not exceed the final
      amount, the two remaining figures agree. */
  lemma RemainingFiguresAgreeWhenAllPaid(job: Job, ms: seq<JobMaterial>, ps: seq<JobPayment>, es: seq<JobExpense>)
    requires forall i :: 0 <= i < |ps| ==> ps[i].isPaid
    requires TotalPlanned(ps) <= job.finalAmount
    ensures DetailFigures(job, ms, ps, es).remainingPayment == Remaining(job.finalAmount, ps)
  {
    SumMonotone(ps, PaidAmount, Amount);
    SumMonotone(ps, Amount, PaidAmount);
  }

  // ---------------------------------------------------------------------
  // The status-change dialog
  // ---------------------------------------------------------------------

  datatype StatusRequest = Warn(message: string) | Send(status: int, notes: string)

  /** `handleStatusChange`: with no status chosen, warn and send nothing;
      otherwise send the chosen status with the typed notes. */
  function HandleStatusChange(newStatus: Option<int>, statusNotes: string): (r: StatusRequest)
    ensures r.Warn? <==> newStatus.None?
    ensures r.Warn? ==> r.message == "Yeni durum seçiniz"
    ensures r.Send? ==> r.status == newStatus.value && r.notes == statusNotes
  {
    match newStatus
    case None => Warn("Yeni durum seçiniz")
    case Some(s) => Send(s, statusNotes)
  }

  /** The options of the status select: the label table's entries in key order. */
  function StatusOptions(): (r: seq<(int, string)>)
    ensures |r| == 10
    ensures forall i :: 0 <= i < 10 ==> r[i].0 == i + 1 && r[i].1 == JobStatusLabels[i + 1]
  {
    seq(10, i requires 0 <= i < 10 => (i + 1, JobStatusLabels[i + 1]))
  }

  /** No transition rule applies: whatever the job's current status, every
      status, the current one included, is offered and is sent as chosen. */
  lemma AnyStatusCanBeSent(job: Job, s: JobStatus, notes: string)
    ensures exists i :: 0 <= i < |StatusOptions()| && StatusOptions()[i].0 == s
    ensures HandleStatusChange(Some(s), notes) == Send(s, notes)
  {
    assert StatusOptions()[s - 1].0 == s;
  }

  /** Every offered option is a job status. */
  lemma OptionsAreStatuses()
    ensures forall i :: 0 <= i < |StatusOptions()| ==> 1 <= StatusOptions()[i].0 <= 10
  {
  }
}
