/** The stock movement table: the category shown for a movement, the tag
    for its type, the type filter and the colours of the quantity and new
    stock columns. */
module StockMovementTable {
  import opened Wrappers
  import opened Types
  import opened Folds

  predicate CategoryHasId(id: int, c: ProductCategory) {
    c.id == id
  }

  /** `getCategoryName`: the name of the category embedded in the movement's
      product when it is non-empty; otherwise, when the product has a
      category id other than 0 and the category list has loaded, the name
      of the first category with that id (even an empty one); otherwise
      "-". */
  function CategoryName(categories: seq<ProductCategory>, m: StockMovement): (r: string)
    ensures (m.product.Some? && m.product.value.category.Some? && m.product.value.category.value.name != "")
              ==> r == m.product.value.category.value.name
    ensures m.product.None? ==> r == "-"
    ensures r != "-" ==> (m.product.Some? &&
              ((m.product.value.category.Some? && r == m.product.value.category.value.name) ||
               (exists i :: 0 <= i < |categories| && categories[i].id == m.product.value.categoryId && r == categories[i].name)))
    ensures (categories == [] && m.product.Some? && (m.product.value.category.None? || m.product.value.category.value.name == ""))
              ==> r == "-"
  {
    match m.product
    case None => "-"
    case Some(p) =>
      if p.category.Some? && p.category.value.name != "" then p.category.value.name
      else if p.categoryId != 0 && |categories| > 0 then
        match Find(categories, (c: ProductCategory) => CategoryHasId(p.categoryId, c))
        case Some(c) => c.name
        case None => "-"
      else "-"
  }

  /** When the embedded category has no name, the first listed category with
      the product's id names it. */
  lemma CategoryLookedUpById(categories: seq<ProductCategory>, m: StockMovement, i: int)
    requires m.product.Some? && (m.product.value.category.None? || m.product.value.category.value.name == "")
    requires m.product.value.categoryId != 0
    requires 0 <= i < |categories| && categories[i].id == m.product.value.categoryId
    requires forall j :: 0 <= j < i ==> categories[j].id != categories[i].id
    ensures CategoryName(categories, m) == categories[i].name
  {
    var id := m.product.value.categoryId;
    var f := Find(categories, (c: ProductCategory) => CategoryHasId(id, c));
    var k :| 0 <= k < |categories| && categories[k] == f.value && categories[k].id == id
             && forall j :: 0 <= j < k ==> categories[j].id != id;
    assert k == i;
  }

  /** The category column: a tag with the name, or a bare "-". */
  datatype CategoryCell = CategoryTag(name: string) | NoCategory

  function CategoryCellOf(categories: seq<ProductCategory>, m: StockMovement): (r: CategoryCell)
    ensures r.NoCategory? <==> CategoryName(categories, m) == "-"
    ensures r.CategoryTag? ==> r.name == CategoryName(categories, m)
  {
    var name := CategoryName(categories, m);
    if name != "-" then CategoryTag(name) else NoCategory
  }

  /** A type tag: its text, its colour ("" for the plain tag) and whether it
      carries an up or down arrow. */
  datatype Arrow = Up | Down | NoArrow
  datatype TypeTag = TypeTag(text: string, color: string, arrow: Arrow)

  /** `getMovementTypeTag`: the five known codes have their own label and
      colour; any other code shows a plain "Bilinmiyor" tag. */
  function MovementTypeTag(movementType: int): (r: TypeTag)
    ensures movementType == STOCK_IN <==> r == TypeTag("Giriş", "green", Up)
    ensures movementType == STOCK_OUT <==> r == TypeTag("Çıkış", "red", Down)
    ensures movementType == ADJUSTMENT <==> r == TypeTag("Düzeltme", "blue", NoArrow)
    ensures movementType == RETURN <==> r == TypeTag("İade", "orange", NoArrow)
    ensures movementType == TRANSFER <==> r == TypeTag("Transfer", "purple", NoArrow)
    ensures r.text == "Bilinmiyor" <==> !(1 <= movementType <= 5)
    ensures r.text == "Bilinmiyor" ==> r == TypeTag("Bilinmiyor", "", NoArrow)
  {
    if movementType == STOCK_IN then TypeTag("Giriş", "green", Up)
    else if movementType == STOCK_OUT then TypeTag("Çıkış", "red", Down)
    else if movementType == ADJUSTMENT then TypeTag("Düzeltme", "blue", NoArrow)
    else if movementType == RETURN then TypeTag("İade", "orange", NoArrow)
    else if movementType == TRANSFER then TypeTag("Transfer", "purple", NoArrow)
    else TypeTag("Bilinmiyor", "", NoArrow)
  }

  /** Different codes among the five get different labels. */
  lemma TypeLabelsDistinct(a: int, b: int)
    requires 1 <= a <= 5 && 1 <= b <= 5 && a != b
    ensures MovementTypeTag(a).text != MovementTypeTag(b).text
  {
  }

  predicate HasType(value: int, m: StockMovement) {
    m.movementType == value
  }

  /** The type column's filter: the movements of the chosen code, in table
      order. A movement with an unknown code is never offered by any of the
      five filter entries. */
  function FilterByType(movements: seq<StockMovement>, value: int): (r: seq<StockMovement>)
    ensures forall m :: m in r <==> m in movements && m.movementType == value
    ensures |r| <= |movements|
  {
    FilterMembership(movements, (m: StockMovement) => HasType(value, m));
    Filter(movements, (m: StockMovement) => HasType(value, m))
  }

  const GREEN: string := "#52c41a"
  const RED: string := "#ff4d4f"

  /** The quantity is green for stock coming in (an entry or a return) and
      red for every other type. */
  function QuantityColor(m: StockMovement): (r: string)
    ensures r == GREEN <==> m.movementType == STOCK_IN || m.movementType == RETURN
    ensures r != GREEN ==> r == RED
  {
    if m.movementType == STOCK_IN || m.movementType == RETURN then GREEN else RED
  }

  /** The new stock is green exactly when it is above the previous stock. */
  function NewStockColor(m: StockMovement): (r: string)
    ensures r == GREEN <==> m.newStock > m.previousStock
    ensures r != GREEN ==> r == RED
  {
    if m.newStock > m.previousStock then GREEN else RED
  }

  /** For a movement whose figures follow its type, the two colours agree:
      a positive entry or return shows both green, a positive exit both
      red. An adjustment or a transfer can disagree: its quantity is red
      even when the stock went up. */
  lemma ColorsAgreeWithType(m: StockMovement)
    ensures ((m.movementType == STOCK_IN || m.movementType == RETURN) && m.quantity > 0.0
               && m.newStock == m.previousStock + m.quantity)
              ==> QuantityColor(m) == GREEN && NewStockColor(m) == GREEN
    ensures (m.movementType == STOCK_OUT && m.quantity >= 0.0 && m.newStock == m.previousStock - m.quantity)
              ==> QuantityColor(m) == RED && NewStockColor(m) == RED
    ensures (m.movementType == ADJUSTMENT && m.newStock > m.previousStock)
              ==> QuantityColor(m) == RED && NewStockColor(m) == GREEN
  {
  }

  /** The reference and notes cells: the text, or "-" when it is absent or
      empty. */
  function TextOrDash(s: Option<string>): (r: string)
    ensures s.Some? && s.value != "" ==> r == s.value
    ensures s.None? || s.value == "" ==> r == "-"
  {
    if s.Some? && s.value != "" then s.value else "-"
  }
}
