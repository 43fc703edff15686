/** The single stock movement dialog: the stock summary of the chosen
    product with its shortage warning, the smallest quantity each movement
    type accepts, the preselection a caller can make, and the record posted.
    The chosen product and type are dialog state. */
module StockMovementModal {
  import opened Wrappers
  import opened Types
  import opened Folds
  import opened Text

  /** What the summary box shows for the chosen product. */
  datatype StockInfo = StockInfo(
    current: real,
    minimum: real,
    unit: string,
    warning: bool,
    shortage: Option<real>)

  /** A unit that is empty is shown as "Adet". */
  function UnitOf(p: Product): (r: string)
    ensures p.unit != "" ==> r == p.unit
    ensures p.unit == "" ==> r == "Adet"
  {
    if p.unit != "" then p.unit else "Adet"
  }

  /** The summary box: the warning style when the stock is at or below the
      minimum level, and only then the missing amount, `max(0, minimum -
      stock)`. */
  function StockInfoOf(p: Product): (r: StockInfo)
    ensures r.current == p.stockQuantity && r.minimum == p.minimumStockLevel && r.unit == UnitOf(p)
    ensures r.warning <==> p.stockQuantity <= p.minimumStockLevel
    ensures r.shortage.Some? <==> r.warning
    ensures r.shortage.Some? ==> r.shortage.value >= 0.0
  {
    var warning := p.stockQuantity <= p.minimumStockLevel;
    StockInfo(
      p.stockQuantity,
      p.minimumStockLevel,
      UnitOf(p),
      warning,
      if warning then Some(Max(0.0, p.minimumStockLevel - p.stockQuantity)) else None)
  }

  /** The floor at 0 never bites: the amount is shown only when the stock is
      at or below the minimum, and then it is exactly the difference. */
  lemma ShortageIsDifference(p: Product)
    requires StockInfoOf(p).shortage.Some?
    ensures StockInfoOf(p).shortage.value == p.minimumStockLevel - p.stockQuantity
  {
  }

  /** The alert's type. */
  function AlertType(p: Product): (r: string)
    ensures r == "warning" <==> StockInfoOf(p).warning
    ensures r != "warning" ==> r == "success"
  {
    if StockInfoOf(p).warning then "warning" else "success"
  }

  /** The smallest quantity accepted: 0 for an adjustment, which enters the
      new stock level, and 1 for every other type or none. */
  function MinQuantity(selectedType: Option<int>): (r: real)
    ensures r == 0.0 <==> selectedType == Some(ADJUSTMENT)
    ensures r != 0.0 ==> r == 1.0
  {
    if selectedType == Some(ADJUSTMENT) then 0.0 else 1.0
  }

  /** The quantity field's label. */
  function QuantityLabel(selectedType: Option<int>): (r: string)
    ensures r == "Yeni Stok Miktarı" <==> selectedType == Some(ADJUSTMENT)
    ensures r != "Yeni Stok Miktarı" ==> r == "Miktar"
  {
    if selectedType == Some(ADJUSTMENT) then "Yeni Stok Miktarı" else "Miktar"
  }

  /** A zero quantity is accepted for an adjustment only. */
  lemma ZeroOnlyForAdjustment(selectedType: Option<int>)
    ensures 0.0 >= MinQuantity(selectedType) <==> selectedType == Some(ADJUSTMENT)
  {
  }

  /** The values the form holds. */
  datatype MovementFormValues = MovementFormValues(
    productId: Option<int>,
    movementType: Option<int>,
    quantity: Option<real>,
    referenceNumber: Option<string>,
    notes: Option<string>)

  const EMPTY_FORM: MovementFormValues := MovementFormValues(None, None, None, None, None)

  predicate HasId(id: int, p: Product) {
    p.id == id
  }

  /** The form's rules: product, type and quantity are required, and the
      quantity is at least the minimum for the chosen type. */
  predicate Valid(values: MovementFormValues, selectedType: Option<int>) {
    && values.productId.Some?
    && values.movementType.Some?
    && values.quantity.Some? && values.quantity.value >= MinQuantity(selectedType)
  }

  /** `handleSubmit`: the form values as they are, stamped with `now`; the
      reference and notes go through unchanged, an empty one included. */
  function SubmitData(values: MovementFormValues, selectedType: Option<int>, now: string): (r: Option<StockMovementFormData>)
    ensures r.Some? <==> Valid(values, selectedType)
    ensures r.Some? ==> Some(r.value.productId) == values.productId && Some(r.value.movementType) == values.movementType
    ensures r.Some? ==> Some(r.value.quantity) == values.quantity
    ensures r.Some? ==> r.value.referenceNumber == values.referenceNumber && r.value.notes == values.notes
    ensures r.Some? ==> r.value.movementDate == now
  {
    if !Valid(values, selectedType) then None
    else Some(StockMovementFormData(
      values.productId.value,
      values.movementType.value,
      values.quantity.value,
      values.referenceNumber,
      values.notes,
      now))
  }

  /** The dialog's state. */
  class MovementForm {
    var values: MovementFormValues
    var selectedProduct: Option<Product>
    var selectedType: Option<int>

    constructor ()
      ensures values == EMPTY_FORM && selectedProduct == None && selectedType == None
    {
      values := EMPTY_FORM;
      selectedProduct := None;
      selectedType := None;
    }

    /** Opening the dialog clears it. A preselected product (an id that is
        present and not 0) is chosen, with "stock in" as the type; its
        summary shows if the product is in the list. A closed dialog changes
        nothing. */
    method Open(open: bool, products: seq<Product>, preSelectedProductId: Option<int>)
      modifies this
      ensures !open ==> values == old(values) && selectedProduct == old(selectedProduct) && selectedType == old(selectedType)
      ensures open && preSelectedProductId.Some? && preSelectedProductId.value != 0 ==>
        && values == EMPTY_FORM.(productId := preSelectedProductId, movementType := Some(STOCK_IN))
        && selectedType == Some(STOCK_IN)
        && selectedProduct == Find(products, (p: Product) => HasId(preSelectedProductId.value, p))
      ensures open && (preSelectedProductId.None? || preSelectedProductId.value == 0) ==>
        values == EMPTY_FORM && selectedType == None && selectedProduct == None
    {
      if open {
        values := EMPTY_FORM;
        selectedType := None;
        if preSelectedProductId.Some? && preSelectedProductId.value != 0 {
          var id := preSelectedProductId.value;
          selectedProduct := Find(products, (p: Product) => HasId(id, p));
          values := values.(productId := Some(id), movementType := Some(STOCK_IN));
          selectedType := Some(STOCK_IN);
        } else {
          selectedProduct := None;
        }
      }
    }

    /** Choosing a product stores its id and looks it up for the summary. */
    method HandleProductChange(products: seq<Product>, productId: int)
      modifies this
      ensures values == old(values).(productId := Some(productId)) && selectedType == old(selectedType)
      ensures selectedProduct.Some? ==> selectedProduct.value in products && selectedProduct.value.id == productId
      ensures selectedProduct.None? <==> forall i :: 0 <= i < |products| ==> products[i].id != productId
    {
      values := values.(productId := Some(productId));
      selectedProduct := Find(products, (p: Product) => HasId(productId, p));
    }

    /** Choosing a type stores it; the quantity rule follows it. */
    method HandleTypeChange(movementType: int)
      modifies this
      ensures values == old(values).(movementType := Some(movementType))
      ensures selectedType == Some(movementType) && selectedProduct == old(selectedProduct)
    {
      values := values.(movementType := Some(movementType));
      selectedType := Some(movementType);
    }

    /** The record the dialog would post now. */
    function Submission(now: string): (r: Option<StockMovementFormData>)
      reads this
      ensures r.Some? <==> Valid(values, selectedType)
    {
      SubmitData(values, selectedType, now)
    }
  }

  /** A dialog opened on a preselected product posts a stock entry of that
      product once a quantity of at least 1 is entered. */
  lemma PreselectedPostsStockIn(id: int, quantity: real, now: string)
    requires id != 0 && quantity >= 1.0
    ensures var v := EMPTY_FORM.(productId := Some(id), movementType := Some(STOCK_IN), quantity := Some(quantity));
      SubmitData(v, Some(STOCK_IN), now) == Some(StockMovementFormData(id, STOCK_IN, quantity, None, None, now))
  {
  }
}
