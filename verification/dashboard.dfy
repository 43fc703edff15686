/** The dashboard: the customer, supplier and product counts with their
    active counts, the total stock value, and the low-stock list. */
module Dashboard {
  import opened Wrappers
  import opened Types
  import opened Folds
  import opened ProductsPage

  /** A statistics card: how many there are and how many are active. */
  datatype CountCard = CountCard(total: nat, active: nat)

  /** A card's figures; both 0 when the list has not loaded. */
  function CountCardOf<T>(xs: Option<seq<T>>, isActive: T -> bool): (r: CountCard)
    ensures xs.None? ==> r == CountCard(0, 0)
    ensures xs.Some? ==> r.total == |xs.value| && r.active == Count(xs.value, isActive)
    ensures r.active <= r.total
  {
    match xs
    case None => CountCard(0, 0)
    case Some(s) => CountCard(|s|, Count(s, isActive))
  }

  /** When every entry is active, the active count is the total. */
  lemma AllActiveCountsAll<T>(s: seq<T>, isActive: T -> bool)
    requires forall i :: 0 <= i < |s| ==> isActive(s[i])
    ensures CountCardOf(Some(s), isActive).active == CountCardOf(Some(s), isActive).total
  {
    FilterAll(s, isActive);
  }

  /** What a card does not count as active is exactly the number of
      inactive entries. */
  lemma {:induction false} InactiveCountsInactive<T>(s: seq<T>, isActive: T -> bool)
    ensures CountCardOf(Some(s), isActive).total - CountCardOf(Some(s), isActive).active
         == Count(s, (x: T) => !isActive(x))
    decreases |s|
  {
    if s != [] {
      var init := s[..|s| - 1];
      InactiveCountsInactive(init, isActive);
      assert init + [s[|s| - 1]] == s;
    }
  }

  predicate IsActiveCustomer(c: Customer) { c.isActive }
  predicate IsActiveSupplier(s: Supplier) { s.isActive }
  predicate IsActiveProduct(p: Product) { p.isActive }

  /** The three cards. */
  function CustomerCard(customers: Option<seq<Customer>>): (r: CountCard)
    ensures customers.None? ==> r == CountCard(0, 0)
    ensures customers.Some? ==> r.total == |customers.value| && r.active == Count(customers.value, IsActiveCustomer)
  {
    CountCardOf(customers, IsActiveCustomer)
  }

  function SupplierCard(suppliers: Option<seq<Supplier>>): (r: CountCard)
    ensures suppliers.None? ==> r == CountCard(0, 0)
    ensures suppliers.Some? ==> r.total == |suppliers.value| && r.active == Count(suppliers.value, IsActiveSupplier)
  {
    CountCardOf(suppliers, IsActiveSupplier)
  }

  function ProductCard(products: Option<seq<Product>>): (r: CountCard)
    ensures products.None? ==> r == CountCard(0, 0)
    ensures products.Some? ==> r.total == |products.value| && r.active == Count(products.value, IsActiveProduct)
  {
    CountCardOf(products, IsActiveProduct)
  }

  /** `totalStockValue`: the stock value of every product, 0 when the list
      has not loaded. */
  function TotalStockValue(products: Option<seq<Product>>): (r: real)
    ensures products.None? ==> r == 0.0
    ensures products.Some? ==> r == Sum(products.value, StockValue)
  {
    match products
    case None => 0.0
    case Some(ps) => Sum(ps, StockValue)
  }

  /** Adding a product adds its stock value; the order of the list does not
      matter. */
  lemma TotalStockValueProperties(ps: seq<Product>, p: Product, qs: seq<Product>)
    ensures TotalStockValue(Some(ps + [p])) == TotalStockValue(Some(ps)) + p.stockQuantity * p.purchasePrice
    ensures multiset(ps) == multiset(qs) ==> TotalStockValue(Some(ps)) == TotalStockValue(Some(qs))
  {
    SumAppend(ps, [p], StockValue);
    if multiset(ps) == multiset(qs) {
      SumPermutation(ps, qs, StockValue);
    }
  }

  /** With no negative quantity or price, the total is not negative. */
  lemma TotalStockValueNonNegative(ps: seq<Product>)
    requires forall i :: 0 <= i < |ps| ==> ps[i].stockQuantity >= 0.0 && ps[i].purchasePrice >= 0.0
    ensures TotalStockValue(Some(ps)) >= 0.0
  {
    SumMonotone(ps, (p: Product) => 0.0, StockValue);
    ZeroSum(ps);
  }

  /** Summing zeros gives zero. */
  lemma {:induction false} ZeroSum(ps: seq<Product>)
    ensures Sum(ps, (p: Product) => 0.0) == 0.0
    decreases |ps|
  {
    if ps != [] {
      ZeroSum(ps[..|ps| - 1]);
    }
  }

  /** `lowStockProducts`: the active products at or below their minimum
      level, in list order; none when the list has not loaded. */
  function LowStockProducts(products: Option<seq<Product>>): (r: seq<Product>)
    ensures products.None? ==> r == []
    ensures products.Some? ==> forall p :: p in r <==> p in products.value && p.isActive && AtOrBelowMinStockLevel(p)
    ensures |r| == LowStockCount(products)
  {
    match products
    case None => []
    case Some(ps) =>
      FilterMembership(ps, ActiveAndLowOnStock);
      Filter(ps, ActiveAndLowOnStock)
  }

  /** The list keeps the loaded order and each product's multiplicity: the
      list of a concatenation is the concatenation of the lists. */
  lemma LowStockProductsKeepsOrder(pre: seq<Product>, post: seq<Product>)
    ensures LowStockProducts(Some(pre + post)) == LowStockProducts(Some(pre)) + LowStockProducts(Some(post))
  {
    FilterAppend(pre, post, ActiveAndLowOnStock);
  }

  /** The low-stock card and table. */
  datatype LowStockView = LowStockView(count: nat, countColor: string, showTable: bool)

  /** The table appears only when the list is non-empty; the count is amber
      then and green otherwise. */
  function LowStockViewOf(products: Option<seq<Product>>): (r: LowStockView)
    ensures r.count == |LowStockProducts(products)|
    ensures r.showTable <==> r.count > 0
    ensures r.countColor == "#faad14" <==> r.count > 0
  {
    var n := |LowStockProducts(products)|;
    LowStockView(n, if n > 0 then "#faad14" else "#52c41a", n > 0)
  }

  /** The dashboard's list and the products page's low-stock badge agree,
      and the table shows exactly when some active product is low. */
  lemma LowStockAgreesWithProductsPage(ps: seq<Product>)
    ensures |LowStockProducts(Some(ps))| == LowStockCount(Some(ps))
    ensures LowStockViewOf(Some(ps)).showTable <==> exists i :: 0 <= i < |ps| && ps[i].isActive && AtOrBelowMinStockLevel(ps[i])
  {
  }
}
