/** The customer table with receivables: the summaries fetched for all
    customers (requested with `activeOnly` false) are put into a lookup map
    keyed by customer id, and each row's billed, paid and balance cells and
    the sorters read that map, a customer with no summary counting as 0. */
module CustomerReceivables {
  import opened Wrappers
  import opened Types
  import opened Folds

  /** The summaries are requested for all customers, not only active ones. */
  const ACTIVE_ONLY: bool := false

  /** The lookup map the `forEach` of `set` calls leaves behind, as a
      specification: each summary in turn is stored under its customer id,
      so a later summary for the same id replaces an earlier one. */
  function LookupMap(rs: seq<CustomerReceivableSummary>): (r: map<int, CustomerReceivableSummary>)
    ensures forall id :: id in r ==> r[id].customerId == id
    ensures |rs| > 0 ==> rs[|rs| - 1].customerId in r && r[rs[|rs| - 1].customerId] == rs[|rs| - 1]
    decreases |rs|
  {
    if rs == [] then map[]
    else LookupMap(rs[..|rs| - 1])[rs[|rs| - 1].customerId := rs[|rs| - 1]]
  }

  /** `receivablesMap`: filled one summary at a time; no summaries (still
      loading, or failed) leave it empty. */
  method BuildLookupMap(receivables: Option<seq<CustomerReceivableSummary>>) returns (m: map<int, CustomerReceivableSummary>)
    ensures receivables.None? ==> m == map[]
    ensures receivables.Some? ==> m == LookupMap(receivables.value)
  {
    m := map[];
    if receivables.Some? {
      var rs := receivables.value;
      var i := 0;
      while i < |rs|
        invariant 0 <= i <= |rs|
        invariant m == LookupMap(rs[..i])
      {
        assert rs[..i + 1][..i] == rs[..i];
        m := m[rs[i].customerId := rs[i]];
        i := i + 1;
      }
      assert rs[..|rs|] == rs;
    }
  }

  /** The map holds an entry for exactly the ids some summary carries, and
      every entry is one of the summaries, stored under its own id. */
  lemma {:induction false} LookupMapKeys(rs: seq<CustomerReceivableSummary>)
    ensures forall id :: id in LookupMap(rs) <==> exists i :: 0 <= i < |rs| && rs[i].customerId == id
    ensures forall id :: id in LookupMap(rs) ==> LookupMap(rs)[id] in rs && LookupMap(rs)[id].customerId == id
    decreases |rs|
  {
    if rs != [] {
      var init := rs[..|rs| - 1];
      LookupMapKeys(init);
      forall id | exists i :: 0 <= i < |rs| && rs[i].customerId == id
        ensures id in LookupMap(rs)
      {
        var i :| 0 <= i < |rs| && rs[i].customerId == id;
        if i < |rs| - 1 {
          assert init[i].customerId == id;
        }
      }
      forall id | id in LookupMap(rs)
        ensures exists i :: 0 <= i < |rs| && rs[i].customerId == id
      {
        if id != rs[|rs| - 1].customerId {
          assert id in LookupMap(init);
          var i :| 0 <= i < |init| && init[i].customerId == id;
          assert rs[i].customerId == id;
        }
      }
    }
  }

  /** Last one wins: a summary that no later summary shares an id with is
      the one the map holds for that id. */
  lemma {:induction false} LookupMapLastWins(rs: seq<CustomerReceivableSummary>, i: int)
    requires 0 <= i < |rs|
    requires forall j :: i < j < |rs| ==> rs[j].customerId != rs[i].customerId
    ensures rs[i].customerId in LookupMap(rs) && LookupMap(rs)[rs[i].customerId] == rs[i]
    decreases |rs|
  {
    if i < |rs| - 1 {
      var init := rs[..|rs| - 1];
      assert forall j :: i < j < |init| ==> init[j].customerId != init[i].customerId by {
        forall j | i < j < |init| ensures init[j].customerId != init[i].customerId {
          assert init[j] == rs[j];
        }
      }
      LookupMapLastWins(init, i);
    }
  }

  /** The summary shown for a customer, if any. */
  function SummaryFor(m: map<int, CustomerReceivableSummary>, c: Customer): (r: Option<CustomerReceivableSummary>)
    ensures r.Some? <==> c.id in m
    ensures r.Some? ==> r.value == m[c.id]
  {
    if c.id in m then Some(m[c.id]) else None
  }

  /** A money cell: a spinner while the summaries load, a formatted amount,
      or the literal "₺0.00" for a customer with no summary. */
  datatype MoneyCell = Spinner | Formatted(amount: real) | Literal(text: string)

  /** The "Toplam Faturalanan" cell. */
  function BilledCell(m: map<int, CustomerReceivableSummary>, loading: bool, c: Customer): (r: MoneyCell)
    ensures loading <==> r.Spinner?
    ensures !loading && c.id in m ==> r == Formatted(m[c.id].totalBilled)
    ensures !loading && c.id !in m ==> r == Literal("₺0.00")
  {
    if loading then Spinner
    else match SummaryFor(m, c)
      case Some(s) => Formatted(s.totalBilled)
      case None => Literal("₺0.00")
  }

  /** The "Ödenen" cell. */
  function PaidCell(m: map<int, CustomerReceivableSummary>, loading: bool, c: Customer): (r: MoneyCell)
    ensures loading <==> r.Spinner?
    ensures !loading && c.id in m ==> r == Formatted(m[c.id].totalPaid)
    ensures !loading && c.id !in m ==> r == Literal("₺0.00")
  {
    if loading then Spinner
    else match SummaryFor(m, c)
      case Some(s) => Formatted(s.totalPaid)
      case None => Literal("₺0.00")
  }

  /** The amount the billed column sorts by: 0 without a summary. */
  function BilledOf(m: map<int, CustomerReceivableSummary>, c: Customer): (r: real)
    ensures c.id in m ==> r == m[c.id].totalBilled
    ensures c.id !in m ==> r == 0.0
  {
    match SummaryFor(m, c)
    case Some(s) => s.totalBilled
    case None => 0.0
  }

  /** The balance a row shows and sorts by: 0 without a summary. */
  function BalanceOf(m: map<int, CustomerReceivableSummary>, c: Customer): (r: real)
    ensures c.id in m ==> r == m[c.id].outstandingBalance
    ensures c.id !in m ==> r == 0.0
  {
    match SummaryFor(m, c)
    case Some(s) => s.outstandingBalance
    case None => 0.0
  }

  /** The balance cell: the amount and its colour, red while something is owed. */
  datatype BalanceCell = BalanceSpinner | Balance(amount: real, color: string)

  function BalanceCellOf(m: map<int, CustomerReceivableSummary>, loading: bool, c: Customer): (r: BalanceCell)
    ensures loading <==> r.BalanceSpinner?
    ensures r.Balance? ==> r.amount == BalanceOf(m, c)
    ensures r.Balance? ==> (r.color == "#ff4d4f" <==> BalanceOf(m, c) > 0.0)
    ensures r.Balance? && r.color != "#ff4d4f" ==> r.color == "#52c41a"
  {
    if loading then BalanceSpinner
    else
      var balance := BalanceOf(m, c);
      Balance(balance, if balance > 0.0 then "#ff4d4f" else "#52c41a")
  }

  /** The billed column's comparator: the difference of the billed totals. */
  function BilledOrder(m: map<int, CustomerReceivableSummary>, a: Customer, b: Customer): (r: real)
    ensures r < 0.0 <==> BilledOf(m, a) < BilledOf(m, b)
    ensures r == 0.0 <==> BilledOf(m, a) == BilledOf(m, b)
  {
    BilledOf(m, a) - BilledOf(m, b)
  }

  /** The balance column's comparator: the difference of the balances. */
  function BalanceOrder(m: map<int, CustomerReceivableSummary>, a: Customer, b: Customer): (r: real)
    ensures r < 0.0 <==> BalanceOf(m, a) < BalanceOf(m, b)
    ensures r == 0.0 <==> BalanceOf(m, a) == BalanceOf(m, b)
  {
    BalanceOf(m, a) - BalanceOf(m, b)
  }

  /** Both comparators are antisymmetric, and two customers without a
      summary compare equal. */
  lemma OrdersAntisymmetric(m: map<int, CustomerReceivableSummary>, a: Customer, b: Customer)
    ensures BilledOrder(m, a, b) == -BilledOrder(m, b, a)
    ensures BalanceOrder(m, a, b) == -BalanceOrder(m, b, a)
    ensures a.id !in m && b.id !in m ==> BalanceOrder(m, a, b) == 0.0 && BilledOrder(m, a, b) == 0.0
  {
  }

  /** The sort key of the default order: the negated balance, so that the
      largest balance comes first. */
  function NegatedBalance(m: map<int, CustomerReceivableSummary>): Customer -> real {
    (c: Customer) => -BalanceOf(m, c)
  }

  /** The rows in the table's default order, descending by balance: the same
      customers, each balance at least the next one's. */
  function DefaultOrder(m: map<int, CustomerReceivableSummary>, customers: seq<Customer>): (r: seq<Customer>)
    ensures multiset(r) == multiset(customers)
    ensures forall i, j :: 0 <= i < j < |r| ==> BalanceOf(m, r[i]) >= BalanceOf(m, r[j])
  {
    var r := SortBy(customers, NegatedBalance(m));
    assert forall i, j :: 0 <= i < j < |r| ==> NegatedBalance(m)(r[i]) <= NegatedBalance(m)(r[j]);
    r
  }

  /** The e-mail cell: the address, or "-" when it is empty. */
  function EmailText(c: Customer): (r: string)
    ensures c.email != "" ==> r == c.email
    ensures c.email == "" ==> r == "-"
  {
    if c.email != "" then c.email else "-"
  }
}
