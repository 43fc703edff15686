/** The customer financial detail page: the aging table built from a
    customer's receivable summary, each bucket's share of the outstanding
    balance, and which of the page's cards are shown. */
module CustomerFinancialDetail {
  import opened Wrappers
  import opened Types

  /** One row of the aging table. */
  datatype AgingRow = AgingRow(key: string, period: string, amount: real, color: string)

  /** The four aging rows, youngest first, each carrying its bucket's amount. */
  function AgingRows(aging: AgingBreakdown): (r: seq<AgingRow>)
    ensures |r| == 4
    ensures r[0].key == "current" && r[0].amount == aging.current
    ensures r[1].key == "30-60" && r[1].amount == aging.days30To60
    ensures r[2].key == "60-90" && r[2].amount == aging.days60To90
    ensures r[3].key == "90+" && r[3].amount == aging.over90Days
  {
    [ AgingRow("current", "Güncel (0-30 gün)", aging.current, "#52c41a"),
      AgingRow("30-60", "30-60 Gün", aging.days30To60, "#faad14"),
      AgingRow("60-90", "60-90 Gün", aging.days60To90, "#ff7a45"),
      AgingRow("90+", "90+ Gün (Vadesi Geçmiş)", aging.over90Days, "#ff4d4f") ]
  }

  /** A row's share of the outstanding balance, in percent; 0 when nothing
      is outstanding (or the balance is negative). */
  function RowPercentage(amount: real, outstanding: real): (r: real)
    ensures outstanding > 0.0 ==> r * outstanding == amount * 100.0
    ensures outstanding <= 0.0 ==> r == 0.0
  {
    if outstanding > 0.0 then amount / outstanding * 100.0 else 0.0
  }

  /** With a positive balance, the four percentages add up to the "100%" the
      total row shows exactly when the buckets add up to the balance. */
  lemma PercentagesSumTo100(aging: AgingBreakdown, outstanding: real)
    requires outstanding > 0.0
    ensures RowPercentage(aging.current, outstanding) + RowPercentage(aging.days30To60, outstanding)
            + RowPercentage(aging.days60To90, outstanding) + RowPercentage(aging.over90Days, outstanding) == 100.0
        <==> aging.current + aging.days30To60 + aging.days60To90 + aging.over90Days == outstanding
  {
    var p := RowPercentage(aging.current, outstanding) + RowPercentage(aging.days30To60, outstanding)
             + RowPercentage(aging.days60To90, outstanding) + RowPercentage(aging.over90Days, outstanding);
    var b := aging.current + aging.days30To60 + aging.days60To90 + aging.over90Days;
    assert p * outstanding == b * 100.0;
    if p == 100.0 {
      assert b * 100.0 == outstanding * 100.0;
    }
  }

  /** The total row: the outstanding balance and a fixed "100%". */
  datatype TotalRow = TotalRow(amount: real, percentage: string)

  /** What the page shows. */
  datatype View =
    | NotFound(message: string)
    | Detail(
        title: string,
        rows: seq<AgingRow>,
        total: TotalRow,
        showAgingCard: bool,
        showOver90Alert: bool,
        showNoDebtCard: bool)

  /** The page for a customer and its summary, either of which may be missing. */
  function PageView(customer: Option<Customer>, summary: Option<CustomerReceivableSummary>): (r: View)
    ensures r.NotFound? <==> customer.None? || summary.None?
    ensures r.NotFound? ==> r.message == "Müşteri Bulunamadı"
    ensures r.Detail? ==> r.rows == AgingRows(summary.value.aging)
    ensures r.Detail? ==> r.total == TotalRow(summary.value.outstandingBalance, "100%")
    ensures r.Detail? ==> (r.showAgingCard <==> summary.value.outstandingBalance > 0.0)
    ensures r.Detail? ==> (r.showNoDebtCard <==> summary.value.outstandingBalance == 0.0)
    ensures r.Detail? ==> (r.showOver90Alert <==> r.showAgingCard && summary.value.aging.over90Days > 0.0)
  {
    if customer.None? || summary.None? then NotFound("Müşteri Bulunamadı")
    else
      var c := customer.value;
      var s := summary.value;
      var showAging := s.outstandingBalance > 0.0;
      Detail(
        Title(c),
        AgingRows(s.aging),
        TotalRow(s.outstandingBalance, "100%"),
        showAging,
        showAging && s.aging.over90Days > 0.0,
        s.outstandingBalance == 0.0)
  }

  /** The page heading: the customer's name and a space, followed by "- " and
      the company name when there is a non-empty one (an empty company name
      is falsy and renders nothing). */
  function Title(c: Customer): (r: string)
    ensures c.companyName.Some? && c.companyName.value != "" ==> r == c.name + " - " + c.companyName.value
    ensures c.companyName.None? || c.companyName.value == "" ==> r == c.name + " "
    ensures r[..|c.name|] == c.name
  {
    c.name + " " + (if c.companyName.Some? && c.companyName.value != "" then "- " + c.companyName.value else "")
  }

  /** The aging card and the no-debt card are never shown together, and a
      negative balance (a customer in credit) shows neither. */
  lemma CardsExclusive(customer: Customer, summary: CustomerReceivableSummary)
    ensures var v := PageView(Some(customer), Some(summary));
      v.Detail? && !(v.showAgingCard && v.showNoDebtCard)
      && (summary.outstandingBalance < 0.0 ==> !v.showAgingCard && !v.showNoDebtCard && !v.showOver90Alert)
  {
  }

  /** Overdue receivables are flagged only while something is outstanding. */
  lemma Over90AlertNeedsBalance(customer: Customer, summary: CustomerReceivableSummary)
    requires summary.aging.over90Days > 0.0 && summary.outstandingBalance <= 0.0
    ensures !PageView(Some(customer), Some(summary)).showOver90Alert
  {
  }
}
