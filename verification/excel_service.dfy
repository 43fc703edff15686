/** The spreadsheet rows the ERP writes: the stock movement export, the
    product export and the bulk stock template, and the type names the
    movement export uses. Reading and writing the workbook is left out; the
    rows are values, and the date text is a parameter. */
module ExcelService {
  import opened Wrappers
  import opened Types
  import opened Folds
  import opened BulkStockMovement
  import StockMovementTable

  /** `getMovementTypeName`: the five known codes have their own name; any
      other code is "Bilinmiyor". */
  function MovementTypeName(movementType: int): (r: string)
    ensures movementType == STOCK_IN <==> r == "Stok Girişi"
    ensures movementType == STOCK_OUT <==> r == "Stok Çıkışı"
    ensures movementType == ADJUSTMENT <==> r == "Düzeltme"
    ensures movementType == RETURN <==> r == "İade"
    ensures movementType == TRANSFER <==> r == "Transfer"
    ensures r == "Bilinmiyor" <==> !(1 <= movementType <= 5)
  {
    if movementType == STOCK_IN then "Stok Girişi"
    else if movementType == STOCK_OUT then "Stok Çıkışı"
    else if movementType == ADJUSTMENT then "Düzeltme"
    else if movementType == RETURN then "İade"
    else if movementType == TRANSFER then "Transfer"
    else "Bilinmiyor"
  }

  /** The export and the movement table fall back to "Bilinmiyor" for the
      same codes, and among the five known codes the two name them in the
      same one-to-one way. */
  lemma TypeNamesAgreeWithTable(a: int, b: int)
    ensures MovementTypeName(a) == "Bilinmiyor" <==> StockMovementTable.MovementTypeTag(a).text == "Bilinmiyor"
    ensures (MovementTypeName(a) == MovementTypeName(b))
              <==> (StockMovementTable.MovementTypeTag(a).text == StockMovementTable.MovementTypeTag(b).text)
  {
  }

  /** `s || ''` on an optional text. */
  function OrEmpty(s: Option<string>): (r: string)
    ensures s.Some? ==> r == s.value
    ensures s.None? ==> r == ""
  {
    if s.Some? then s.value else ""
  }

  /** One row of the stock movement export. */
  datatype MovementRow = MovementRow(
    date: string,
    productName: string,
    productCode: string,
    typeName: string,
    quantity: real,
    previousStock: real,
    newStock: real,
    unit: string,
    referenceNumber: string,
    notes: string)

  /** A movement's row: `formatDate` renders the date; a missing product
      leaves name and code empty and the unit "Adet"; a missing reference or
      note is an empty cell. */
  function MovementRowOf(m: StockMovement, formatDate: string -> string): (r: MovementRow)
    ensures r.date == formatDate(m.movementDate)
    ensures r.typeName == MovementTypeName(m.movementType)
    ensures r.quantity == m.quantity && r.previousStock == m.previousStock && r.newStock == m.newStock
    ensures m.product.None? ==> r.productName == "" && r.productCode == "" && r.unit == "Adet"
    ensures m.product.Some? ==> r.productName == m.product.value.name && r.productCode == m.product.value.code
    ensures m.product.Some? && m.product.value.unit != "" ==> r.unit == m.product.value.unit
    ensures r.unit != ""
    ensures r.referenceNumber == OrEmpty(m.referenceNumber) && r.notes == OrEmpty(m.notes)
  {
    MovementRow(
      formatDate(m.movementDate),
      if m.product.Some? then m.product.value.name else "",
      if m.product.Some? then m.product.value.code else "",
      MovementTypeName(m.movementType),
      m.quantity,
      m.previousStock,
      m.newStock,
      if m.product.Some? && m.product.value.unit != "" then m.product.value.unit else "Adet",
      OrEmpty(m.referenceNumber),
      OrEmpty(m.notes))
  }

  function MovementRowFor(formatDate: string -> string): StockMovement -> MovementRow {
    (m: StockMovement) => MovementRowOf(m, formatDate)
  }

  /** The rows of `exportStockMovementsToExcel`: one per movement, in order. */
  function MovementRows(movements: seq<StockMovement>, formatDate: string -> string): (r: seq<MovementRow>)
    ensures |r| == |movements|
    ensures forall i :: 0 <= i < |movements| ==> r[i] == MovementRowOf(movements[i], formatDate)
  {
    Map(movements, MovementRowFor(formatDate))
  }

  /** Exporting two lists one after the other gives the rows of each, in
      the same order. */
  lemma MovementRowsAppend(a: seq<StockMovement>, b: seq<StockMovement>, formatDate: string -> string)
    ensures MovementRows(a + b, formatDate) == MovementRows(a, formatDate) + MovementRows(b, formatDate)
  {
    MapAppend(a, b, MovementRowFor(formatDate));
  }

  /** One row of the product export. */
  datatype ProductRow = ProductRow(
    code: string,
    name: string,
    barcode: string,
    category: string,
    stock: real,
    minimumStock: real,
    unit: string,
    purchasePrice: real,
    salePrice: real,
    profitMargin: real,
    supplier: string,
    status: string)

  /** A product's row: the figures as they are, empty cells for a missing
      barcode, category or supplier, "Adet" for an empty unit, and "Aktif"
      exactly for an active product. */
  function ProductRowOf(p: Product): (r: ProductRow)
    ensures r.code == p.code && r.name == p.name
    ensures r.barcode == OrEmpty(p.barcode)
    ensures p.category.Some? ==> r.category == p.category.value.name
    ensures p.category.None? ==> r.category == ""
    ensures p.supplier.Some? ==> r.supplier == p.supplier.value.companyName
    ensures p.supplier.None? ==> r.supplier == ""
    ensures r.stock == p.stockQuantity && r.minimumStock == p.minimumStockLevel
    ensures r.purchasePrice == p.purchasePrice && r.salePrice == p.salePrice && r.profitMargin == p.profitMargin
    ensures p.unit != "" ==> r.unit == p.unit
    ensures p.unit == "" ==> r.unit == "Adet"
    ensures r.status == "Aktif" <==> p.isActive
    ensures r.status != "Aktif" ==> r.status == "Pasif"
  {
    ProductRow(
      p.code,
      p.name,
      OrEmpty(p.barcode),
      if p.category.Some? then p.category.value.name else "",
      p.stockQuantity,
      p.minimumStockLevel,
      if p.unit != "" then p.unit else "Adet",
      p.purchasePrice,
      p.salePrice,
      p.profitMargin,
      if p.supplier.Some? then p.supplier.value.companyName else "",
      if p.isActive then "Aktif" else "Pasif")
  }

  /** The rows of `exportProductsToExcel`: one per product, in order. */
  function ProductRows(products: seq<Product>): (r: seq<ProductRow>)
    ensures |r| == |products|
    ensures forall i :: 0 <= i < |products| ==> r[i] == ProductRowOf(products[i])
  {
    Map(products, ProductRowOf)
  }

  /** The export's status column counts the active products. */
  lemma {:induction false} ActiveRowsCount(products: seq<Product>)
    ensures Count(ProductRows(products), (r: ProductRow) => r.status == "Aktif")
            == Count(products, (p: Product) => p.isActive)
    decreases |products|
  {
    if products != [] {
      var ps := products[..|products| - 1];
      ActiveRowsCount(ps);
      assert ProductRows(products)[..|products| - 1] == ProductRows(ps);
    }
  }

  /** A row of the bulk stock template, as the import reads it back: id,
      code, name and current stock filled, the type, quantity, reference and
      notes cells left empty for the user. */
  function TemplateRowOf(p: Product): (r: BulkRow)
    ensures r.productId == Some(p.id) && r.code == p.code && r.name == p.name
    ensures r.currentStock == Some(p.stockQuantity)
    ensures r.movementType.None? && r.quantity.None? && r.referenceNumber.None? && r.notes.None?
  {
    BulkRow(Some(p.id), p.code, p.name, Some(p.stockQuantity), None, None, None, None)
  }

  /** The rows of `downloadBulkStockTemplate`: one per product, in order. */
  function TemplateRows(products: seq<Product>): (r: seq<BulkRow>)
    ensures |r| == |products|
    ensures forall i :: 0 <= i < |products| ==> r[i] == TemplateRowOf(products[i])
  {
    Map(products, TemplateRowOf)
  }

  /** The user's entries in a template row's empty cells. */
  function Filled(row: BulkRow, movementType: int, quantity: real, referenceNumber: Option<string>, notes: Option<string>): (r: BulkRow)
    ensures r.productId == row.productId && r.code == row.code && r.name == row.name && r.currentStock == row.currentStock
    ensures r.movementType == Some(movementType) && r.quantity == Some(quantity)
    ensures r.referenceNumber == referenceNumber && r.notes == notes
  {
    row.(movementType := Some(movementType), quantity := Some(quantity),
         referenceNumber := referenceNumber, notes := notes)
  }

  /** A template row sent back unfilled is rejected by the import, on its
      type and its quantity. */
  lemma UnfilledTemplateRowRejected(products: seq<Product>, p: Product, showNumber: real -> string)
    ensures BadType(TemplateRowOf(p)) && BadQuantity(TemplateRowOf(p))
    ensures !Validated(products, TemplateRowOf(p), showNumber).isValid
  {
  }

  /** A template row for a listed product with a positive id, filled with an
      entry, exit or adjustment of a positive quantity (an exit no larger
      than the stock of the first product with that id), passes every check
      of the import. */
  lemma FilledTemplateRowAccepted(products: seq<Product>, i: int, movementType: int, quantity: real,
                                  referenceNumber: Option<string>, notes: Option<string>, showNumber: real -> string)
    requires 0 <= i < |products| && products[i].id > 0
    requires forall j :: 0 <= j < i ==> products[j].id != products[i].id
    requires movementType in {STOCK_IN, STOCK_OUT, ADJUSTMENT} && quantity > 0.0
    requires movementType == STOCK_OUT ==> quantity <= products[i].stockQuantity
    ensures Validated(products, Filled(TemplateRowOf(products[i]), movementType, quantity, referenceNumber, notes), showNumber).isValid
  {
    var row := Filled(TemplateRowOf(products[i]), movementType, quantity, referenceNumber, notes);
    ValidIffNoCheckFails(products, row, showNumber);
    if movementType == STOCK_OUT {
      var f := Find(products, (p: Product) => HasProductId(row, p));
      assert HasProductId(row, products[i]);
      var k :| 0 <= k < |products| && products[k] == f.value && HasProductId(row, products[k])
               && forall j :: 0 <= j < k ==> !HasProductId(row, products[j]);
      assert k == i;
    }
  }
}
