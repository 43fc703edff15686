/** The jobs table: the amount cell with its discount rule, the amount
    sorter, and the payment-progress column. */
module JobsTable {
  import opened Wrappers
  import opened Types
  import opened Text
  import opened JobPaymentsTab

  /** What the amount cell shows: the total struck through above the final
      amount, or the total alone. */
  datatype AmountCell = Discounted(struck: real, shown: real) | Plain(shown: real)

  /** A discount is shown only when one is present and positive. */
  function AmountCellOf(job: Job): (r: AmountCell)
    ensures r.Discounted? <==> job.discountAmount.Some? && job.discountAmount.value > 0.0
    ensures r.Discounted? ==> r.struck == job.totalAmount && r.shown == job.finalAmount
    ensures r.Plain? ==> r.shown == job.totalAmount
  {
    match job.discountAmount
    case Some(d) => if d > 0.0 then Discounted(job.totalAmount, job.finalAmount) else Plain(job.totalAmount)
    case None => Plain(job.totalAmount)
  }

  /** The amount column's comparator: by final amount. */
  function AmountOrder(a: Job, b: Job): (r: real)
    ensures r < 0.0 <==> a.finalAmount < b.finalAmount
    ensures r == 0.0 <==> a.finalAmount == b.finalAmount
  {
    a.finalAmount - b.finalAmount
  }

  /** The comparator is antisymmetric. */
  lemma AmountOrderAntisymmetric(a: Job, b: Job)
    ensures AmountOrder(a, b) == -AmountOrder(b, a)
  {
  }

  /** The amount paid towards the job for the progress bar: every embedded
      payment, paid or pending; 0 when the job carries no payment list. */
  function ProgressTotal(job: Job): (r: real)
    ensures job.payments.None? ==> r == 0.0
    ensures job.payments.Some? ==> r == TotalPlanned(job.payments.value)
  {
    match job.payments
    case None => 0.0
    case Some(ps) => TotalPlanned(ps)
  }

  /** The progress percentage: the rounded share of the final amount, 0 when
      the final amount is not positive. */
  function PaymentPercentage(job: Job): (r: int)
    ensures job.finalAmount <= 0.0 ==> r == 0
    ensures job.finalAmount > 0.0 ==> r == Round(ProgressTotal(job) / job.finalAmount * 100.0)
  {
    if job.finalAmount > 0.0 then Round(ProgressTotal(job) / job.finalAmount * 100.0) else 0
  }

  /** The progress bar's status. */
  function ProgressStatus(job: Job): (r: string)
    ensures r == "success" <==> PaymentPercentage(job) >= 100
    ensures r != "success" ==> r == "active"
  {
    if PaymentPercentage(job) >= 100 then "success" else "active"
  }

  /** Scaling by a positive factor keeps a strict order. */
  lemma ScaleStrict(a: real, b: real, c: real)
    requires a < b && c > 0.0
    ensures a * c < b * c
  {
    assert b * c - a * c == (b - a) * c;
  }

  /** A percentage of `f` reaches `k` exactly when `t` reaches `k` percent of `f`. */
  lemma PercentAtLeast(t: real, f: real, k: real)
    requires f > 0.0
    ensures t / f * 100.0 >= k <==> 100.0 * t >= k * f
  {
    var x := t / f * 100.0;
    assert x * f == t * 100.0;
    if x < k { ScaleStrict(x, k, f); }
    if x >= k && 100.0 * t < k * f {
      if x > k { ScaleStrict(k, x, f); }
    }
  }

  /** Rounding makes the bar turn "success" from 99.5% on: a job with a
      positive final amount shows success exactly when twice its payments
      reach 1.99 times its final amount. */
  lemma SuccessThreshold(job: Job)
    requires job.finalAmount > 0.0
    ensures ProgressStatus(job) == "success" <==> 200.0 * ProgressTotal(job) >= 199.0 * job.finalAmount
  {
    PercentAtLeast(ProgressTotal(job), job.finalAmount, 99.5);
  }

  /** With payments between nothing and the final amount, the percentage lies
      between 0 and 100. */
  lemma PercentageBounds(job: Job)
    requires job.finalAmount > 0.0
    requires 0.0 <= ProgressTotal(job) <= job.finalAmount
    ensures 0 <= PaymentPercentage(job) <= 100
  {
    var f := job.finalAmount;
    var t := ProgressTotal(job);
    PercentAtLeast(t, f, 0.0);
    PercentAtLeast(f, f, 100.0);
    var x := t / f * 100.0;
    if x > 100.0 {
      PercentAtLeast(t, f, 100.5);
    }
  }
}
