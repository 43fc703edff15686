/** The products table: supplier and category names looked up by id with
    fallbacks, the margin tag, and the low-stock marking of a row. */
module ProductTable {
  import opened Wrappers
  import opened Types
  import opened Folds
  import opened ProductModal

  predicate SupplierHasId(id: int, s: Supplier) {
    s.id == id
  }

  predicate CategoryHasId(id: int, c: ProductCategory) {
    c.id == id
  }

  /** `getSupplierName`: the first supplier with the id gives its company
      name, or its name when the company name is empty; no supplier, or
      both names empty, gives "Bilinmiyor". */
  function SupplierName(suppliers: seq<Supplier>, supplierId: int): (r: string)
    ensures (forall i :: 0 <= i < |suppliers| ==> suppliers[i].id != supplierId) ==> r == "Bilinmiyor"
    ensures r != "Bilinmiyor" ==> exists i :: 0 <= i < |suppliers| && suppliers[i].id == supplierId
                                    && (r == suppliers[i].companyName || r == suppliers[i].name)
    ensures forall i ::
              (0 <= i < |suppliers| && suppliers[i].id == supplierId
               && (forall j :: 0 <= j < i ==> suppliers[j].id != supplierId)) ==>
              r == (if suppliers[i].companyName != "" then suppliers[i].companyName
                    else if suppliers[i].name != "" then suppliers[i].name
                    else "Bilinmiyor")
    ensures r != ""
  {
    match Find(suppliers, (s: Supplier) => SupplierHasId(supplierId, s))
    case None => "Bilinmiyor"
    case Some(s) =>
      if s.companyName != "" then s.companyName
      else if s.name != "" then s.name
      else "Bilinmiyor"
  }

  /** The first supplier with the id decides: its company name is preferred
      to its name. */
  lemma SupplierNamePrefersCompany(suppliers: seq<Supplier>, i: int)
    requires 0 <= i < |suppliers| && suppliers[i].companyName != ""
    requires forall j :: 0 <= j < i ==> suppliers[j].id != suppliers[i].id
    ensures SupplierName(suppliers, suppliers[i].id) == suppliers[i].companyName
  {
    var f := Find(suppliers, (s: Supplier) => SupplierHasId(suppliers[i].id, s));
    var k :| 0 <= k < |suppliers| && suppliers[k] == f.value && suppliers[k].id == suppliers[i].id
             && forall j :: 0 <= j < k ==> suppliers[j].id != suppliers[i].id;
    assert k == i;
  }

  /** `getCategoryName`: the first category with the id gives its name; no
      such category, or an empty name, gives "Bilinmiyor". */
  function CategoryName(categories: seq<ProductCategory>, categoryId: int): (r: string)
    ensures (forall i :: 0 <= i < |categories| ==> categories[i].id != categoryId) ==> r == "Bilinmiyor"
    ensures r != "Bilinmiyor" ==> exists i :: 0 <= i < |categories| && categories[i].id == categoryId && r == categories[i].name
    ensures forall i ::
              (0 <= i < |categories| && categories[i].id == categoryId
               && (forall j :: 0 <= j < i ==> categories[j].id != categoryId)) ==>
              r == (if categories[i].name != "" then categories[i].name else "Bilinmiyor")
    ensures r != ""
  {
    match Find(categories, (c: ProductCategory) => CategoryHasId(categoryId, c))
    case None => "Bilinmiyor"
    case Some(c) => if c.name != "" then c.name else "Bilinmiyor"
  }

  /** The margin tag's colour: the product modal's bands. */
  function MarginTagColor(margin: real): (r: string)
    ensures r == "green" <==> margin >= 20.0
    ensures r == "orange" <==> 10.0 <= margin < 20.0
    ensures r == "red" <==> margin < 10.0
  {
    match Band(margin)
    case Good => "green"
    case Fair => "orange"
    case Poor => "red"
  }

  /** How a row shows its stock. */
  datatype StockCell = StockCell(warningIcon: bool, color: string, rowClass: string)

  /** The warning icon, the amber text and the "low-stock-row" class all
      appear exactly when the stock is at or below the minimum level. */
  function StockCellOf(p: Product): (r: StockCell)
    ensures r.warningIcon <==> AtOrBelowMinStockLevel(p)
    ensures r.rowClass == "low-stock-row" <==> AtOrBelowMinStockLevel(p)
    ensures r.rowClass != "low-stock-row" ==> r.rowClass == ""
    ensures r.color == "#faad14" <==> AtOrBelowMinStockLevel(p)
  {
    var low := AtOrBelowMinStockLevel(p);
    StockCell(low, if low then "#faad14" else "inherit", if low then "low-stock-row" else "")
  }

  /** The icon and the row class always agree; neither appears when the
      product carries no minimum level, whatever its stock. */
  lemma LowStockMarksAgree(p: Product)
    ensures StockCellOf(p).warningIcon <==> StockCellOf(p).rowClass == "low-stock-row"
    ensures p.minStockLevel.None? ==> !StockCellOf(p).warningIcon
  {
  }
}
