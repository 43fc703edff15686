/** The low-stock list: each product's shortage against its minimum level,
    the shortage sorter, the empty-list message, and the stock-entry dialog
    the list opens for one product. */
module LowStockAlert {
  import opened Wrappers
  import opened Types
  import opened StockMovementModal

  /** The "Eksik Miktar" column: minimum level less stock, not floored. */
  function Shortage(p: Product): (r: real)
    ensures r + p.stockQuantity == p.minimumStockLevel
  {
    p.minimumStockLevel - p.stockQuantity
  }

  /** The shortage sorter: the second product's shortage less the first's. */
  function ShortageOrder(a: Product, b: Product): (r: real)
    ensures r < 0.0 <==> Shortage(a) > Shortage(b)
    ensures r == 0.0 <==> Shortage(a) == Shortage(b)
  {
    Shortage(b) - Shortage(a)
  }

  /** The sorter is antisymmetric, and it puts the larger shortage first. */
  lemma ShortageOrderAntisymmetric(a: Product, b: Product)
    ensures ShortageOrder(a, b) == -ShortageOrder(b, a)
    ensures Shortage(a) > Shortage(b) ==> ShortageOrder(a, b) < 0.0 && ShortageOrder(b, a) > 0.0
  {
  }

  /** The list's shortage and the stock dialog's missing amount agree while
      the stock is at or below the minimum; above it the list shows a
      negative shortage where the dialog shows none. */
  lemma ShortageMatchesDialog(p: Product)
    ensures p.stockQuantity <= p.minimumStockLevel ==> StockInfoOf(p).shortage == Some(Shortage(p))
    ensures p.stockQuantity > p.minimumStockLevel ==> StockInfoOf(p).shortage.None? && Shortage(p) < 0.0
  {
  }

  /** The category tag: the embedded category's name, "Belirtilmemiş" when
      there is none or it is empty. */
  function CategoryLabel(p: Product): (r: string)
    ensures p.category.Some? && p.category.value.name != "" ==> r == p.category.value.name
    ensures p.category.None? || p.category.value.name == "" ==> r == "Belirtilmemiş"
  {
    if p.category.Some? && p.category.value.name != "" then p.category.value.name else "Belirtilmemiş"
  }

  /** The supplier cell: the embedded supplier's company name, else its
      name, else "-". */
  function SupplierLabel(p: Product): (r: string)
    ensures p.supplier.None? ==> r == "-"
    ensures p.supplier.Some? && p.supplier.value.companyName != "" ==> r == p.supplier.value.companyName
    ensures p.supplier.Some? && p.supplier.value.companyName == "" && p.supplier.value.name != "" ==> r == p.supplier.value.name
    ensures p.supplier.Some? && p.supplier.value.companyName == "" && p.supplier.value.name == "" ==> r == "-"
    ensures r != ""
  {
    match p.supplier
    case None => "-"
    case Some(s) => if s.companyName != "" then s.companyName else if s.name != "" then s.name else "-"
  }

  /** What the component renders. */
  datatype View = NoLowStock(message: string) | LowStockTable(rows: seq<Product>, dialogFor: Option<Option<int>>)

  /** The dialog's state. */
  class AlertState {
    var isModalOpen: bool
    var selectedProductId: Option<int>

    /** A product is selected exactly while the dialog is open. */
    predicate Valid()
      reads this
    {
      isModalOpen <==> selectedProductId.Some?
    }

    constructor ()
      ensures Valid() && !isModalOpen && selectedProductId == None
    {
      isModalOpen := false;
      selectedProductId := None;
    }

    /** `handleStockAdd`: select the product and open the dialog. */
    method HandleStockAdd(productId: int)
      modifies this
      ensures Valid()
      ensures isModalOpen && selectedProductId == Some(productId)
    {
      selectedProductId := Some(productId);
      isModalOpen := true;
    }

    /** `handleModalClose`: close the dialog and forget the product. */
    method HandleModalClose()
      modifies this
      ensures Valid()
      ensures !isModalOpen && selectedProductId == None
    {
      isModalOpen := false;
      selectedProductId := None;
    }

    /** An empty list shows the message and no table (and so no dialog);
        otherwise the table, with the dialog for the selected product while
        it is open. */
    function Render(products: seq<Product>): (r: View)
      reads this
      ensures r.NoLowStock? <==> products == []
      ensures r.NoLowStock? ==> r.message == "Harika! Düşük stoklu ürün yok."
      ensures r.LowStockTable? ==> r.rows == products
      ensures r.LowStockTable? ==> (r.dialogFor.Some? <==> isModalOpen)
      ensures r.LowStockTable? && r.dialogFor.Some? ==> r.dialogFor.value == selectedProductId
    {
      if products == [] then NoLowStock("Harika! Düşük stoklu ürün yok.")
      else LowStockTable(products, if isModalOpen then Some(selectedProductId) else None)
    }
  }
}
