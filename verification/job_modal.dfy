/** The create/edit job dialog: the final-amount rule, the defaults it opens
    with, and the job record it submits. The form's fields are a class whose
    methods are the dialog's handlers. */
module JobModal {
  import opened Wrappers
  import opened Types
  import opened Text

  /** The final amount the amount handlers compute: total less discount, an
      empty input counting as 0, never below 0. */
  function FinalAmount(total: Option<real>, discount: Option<real>): (r: real)
    ensures r >= 0.0
    ensures r >= total.GetOr(0.0) - discount.GetOr(0.0)
    ensures r == 0.0 || r == total.GetOr(0.0) - discount.GetOr(0.0)
  {
    Max(total.GetOr(0.0) - discount.GetOr(0.0), 0.0)
  }

  /** With a non-negative total and discount, the final amount is at most the total. */
  lemma FinalAmountAtMostTotal(total: real, discount: real)
    requires total >= 0.0 && discount >= 0.0
    ensures FinalAmount(Some(total), Some(discount)) <= total
  {
  }

  /** The disabled "Nihai Tutar" box: total less discount, with no floor. */
  function DisplayedFinalAmount(total: Option<real>, discount: Option<real>): (r: real)
    ensures r + discount.GetOr(0.0) == total.GetOr(0.0)
  {
    total.GetOr(0.0) - discount.GetOr(0.0)
  }

  /** The box and the computed final amount disagree exactly when the discount
      exceeds the total. */
  lemma DisplayedDiffersFromFinal(total: Option<real>, discount: Option<real>)
    ensures DisplayedFinalAmount(total, discount) != FinalAmount(total, discount)
       <==> discount.GetOr(0.0) > total.GetOr(0.0)
  {
  }

  /** The values the form holds for its registered fields; dates are ISO
      strings here. */
  datatype JobFormValues = JobFormValues(
    customerId: Option<int>,
    title: Option<string>,
    description: Option<string>,
    address: Option<string>,
    scheduledDate: Option<string>,
    startDate: Option<string>,
    status: Option<JobStatus>,
    totalAmount: Option<real>,
    discountAmount: Option<real>,
    notes: Option<string>)

  const EmptyValues: JobFormValues :=
    JobFormValues(None, None, None, None, None, None, None, None, None, None)

  /** A new job starts as "quote sent" with no discount; everything else is empty. */
  const NewJobValues: JobFormValues :=
    EmptyValues.(status := Some(QUOTE_SENT), discountAmount := Some(0.0))

  /** An edited job loads its own values. */
  function ValuesOf(job: Job): (v: JobFormValues)
    ensures v.status == Some(job.status) && v.totalAmount == Some(job.totalAmount)
    ensures v.discountAmount == job.discountAmount && v.customerId == Some(job.customerId)
  {
    JobFormValues(Some(job.customerId), Some(job.title), job.description, Some(job.address),
                  Some(job.scheduledDate), job.startDate, Some(job.status), Some(job.totalAmount),
                  job.discountAmount, job.notes)
  }

  predicate Filled(s: Option<string>) {
    s.Some? && s.value != ""
  }

  /** The form's rules: customer, status, address and date are required, the
      title is required and at most 200 characters, the total is required and
      not negative. */
  predicate Valid(v: JobFormValues) {
    && v.customerId.Some?
    && v.status.Some?
    && Filled(v.title) && |v.title.value| <= 200
    && Filled(v.address)
    && v.scheduledDate.Some?
    && v.totalAmount.Some? && v.totalAmount.value >= 0.0
  }

  /** `handleSubmit`: nothing is sent unless the form validates; otherwise the
      values are sent with the total and discount defaulting to 0 and the job
      forced active. The record has no job number and no final amount. */
  function SubmitData(v: JobFormValues): (r: Option<JobFormData>)
    ensures r.Some? <==> Valid(v)
    ensures r.Some? ==> r.value.isActive
    ensures r.Some? ==> r.value.totalAmount == v.totalAmount.GetOr(0.0)
    ensures r.Some? ==> r.value.discountAmount == Some(v.discountAmount.GetOr(0.0))
    ensures r.Some? ==> r.value.status == v.status.value && r.value.customerId == v.customerId.value
  {
    if !Valid(v) then None
    else Some(JobFormData(
      v.customerId.value,
      v.title.value,
      v.description,
      v.address.value,
      v.scheduledDate.value,
      v.startDate,
      None,
      v.status.value,
      v.totalAmount.GetOr(0.0),
      Some(v.discountAmount.GetOr(0.0)),
      v.notes,
      true))
  }

  /** A new job whose total is filled in is submitted as a quote with no discount. */
  lemma NewJobSubmitsAsQuote(v: JobFormValues)
    requires v == NewJobValues.(customerId := v.customerId, title := v.title, address := v.address,
                                scheduledDate := v.scheduledDate, totalAmount := v.totalAmount)
    requires Valid(v)
    ensures SubmitData(v).Some?
    ensures SubmitData(v).value.status == QUOTE_SENT && SubmitData(v).value.discountAmount == Some(0.0)
  {
  }

  /** The dialog's form. `finalAmount` is a display-only entry of the form store:
      it is never submitted. */
  class JobForm {
    var values: JobFormValues
    var finalAmount: Option<real>

    constructor ()
      ensures values == EmptyValues && finalAmount == None
    {
      values := EmptyValues;
      finalAmount := None;
    }

    /** Opening for a new job clears the form and sets the defaults. */
    method OpenForNew()
      modifies this
      ensures values == NewJobValues && finalAmount == None
    {
      values := EmptyValues;
      finalAmount := None;
      values := values.(status := Some(QUOTE_SENT), discountAmount := Some(0.0));
    }

    /** Opening for an existing job loads the job, its final amount included. */
    method OpenForEdit(job: Job)
      modifies this
      ensures values == ValuesOf(job) && finalAmount == Some(job.finalAmount)
    {
      values := ValuesOf(job);
      finalAmount := Some(job.finalAmount);
    }

    /** `handleAmountChange`: recompute the final amount from the current total
      and discount; no submitted value changes. */
    method HandleAmountChange()
      modifies this
      ensures values == old(values)
      ensures finalAmount == Some(FinalAmount(values.totalAmount, values.discountAmount))
    {
      var total := values.totalAmount.GetOr(0.0);
      var discount := values.discountAmount.GetOr(0.0);
      finalAmount := Some(Max(total - discount, 0.0));
    }
  }
}
