/** Bulk stock movements from a spreadsheet: each imported row is checked
    (product id, movement type, quantity, and stock for a stock-out), the
    dialog keeps the checked rows as state, and submitting posts exactly the
    valid rows. Reading the file is left out; the rows arrive as values. */
module BulkStockMovement {
  import opened Wrappers
  import opened Types
  import opened Text
  import opened Folds

  /** A spreadsheet row. A cell left empty is `None`; the id and type cells
      are read as integers. */
  datatype BulkRow = BulkRow(
    productId: Option<int>,
    code: string,
    name: string,
    currentStock: Option<real>,
    movementType: Option<int>,
    quantity: Option<real>,
    referenceNumber: Option<string>,
    notes: Option<string>)

  /** A row with the outcome of its checks. */
  datatype ValidatedRow = ValidatedRow(row: BulkRow, isValid: bool, errorMessage: string)

  const BAD_PRODUCT_ID := "Ürün ID geçersiz"
  const BAD_TYPE := "İşlem tipi 1, 2 veya 3 olmalı"
  const BAD_QUANTITY := "Miktar 0'dan büyük olmalı"

  /** An id that is missing, 0 or negative. */
  predicate BadProductId(row: BulkRow) {
    row.productId.None? || row.productId.value <= 0
  }

  /** Only entry, exit and adjustment can be imported. */
  predicate BadType(row: BulkRow) {
    row.movementType.None? || row.movementType.value !in {1, 2, 3}
  }

  predicate BadQuantity(row: BulkRow) {
    row.quantity.None? || row.quantity.value <= 0.0
  }

  predicate HasProductId(row: BulkRow, p: Product) {
    row.productId == Some(p.id)
  }

  /** The stock-out check: a stock-out row whose product is found and holds
      less than the quantity. A product that is not found is not flagged
      here. */
  function ShortProduct(products: seq<Product>, row: BulkRow): (r: Option<Product>)
    ensures r.Some? ==> row.movementType == Some(2) && row.quantity.Some? && r.value.stockQuantity < row.quantity.value
    ensures r.Some? ==> r.value in products && row.productId == Some(r.value.id)
    ensures (forall i :: 0 <= i < |products| ==> !HasProductId(row, products[i])) ==> r.None?
  {
    if row.movementType != Some(2) then None
    else match Find(products, (p: Product) => HasProductId(row, p))
      case None => None
      case Some(p) =>
        if row.quantity.Some? && p.stockQuantity < row.quantity.value then Some(p) else None
  }

  /** The failures of a row, in check order. `showNumber` renders the stock
      figure in the message. */
  function RowErrors(products: seq<Product>, row: BulkRow, showNumber: real -> string): (r: seq<string>)
    ensures forall i :: 0 <= i < |r| ==> r[i] != ""
    ensures r == [] <==> !BadProductId(row) && !BadType(row) && !BadQuantity(row) && ShortProduct(products, row).None?
  {
    (if BadProductId(row) then [BAD_PRODUCT_ID] else [])
    + (if BadType(row) then [BAD_TYPE] else [])
    + (if BadQuantity(row) then [BAD_QUANTITY] else [])
    + (match ShortProduct(products, row)
       case Some(p) => ["Yetersiz stok (Mevcut: " + showNumber(p.stockQuantity) + ")"]
       case None => [])
  }

  /** The checked row, as a specification. */
  function Validated(products: seq<Product>, row: BulkRow, showNumber: real -> string): (r: ValidatedRow)
    ensures r.row == row
    ensures r.isValid <==> r.errorMessage == ""
    ensures r.isValid <==> !BadProductId(row) && !BadType(row) && !BadQuantity(row) && ShortProduct(products, row).None?
  {
    var errors := RowErrors(products, row, showNumber);
    JoinEmpty(errors, ", ");
    ValidatedRow(row, |errors| == 0, Join(errors, ", "))
  }

  /** `validateRow`: run the checks one after the other, pushing each
      failure's message. */
  method ValidateRow(products: seq<Product>, row: BulkRow, showNumber: real -> string) returns (v: ValidatedRow)
    ensures v == Validated(products, row, showNumber)
  {
    var errors: seq<string> := [];
    if row.productId.None? || row.productId.value <= 0 {
      errors := errors + [BAD_PRODUCT_ID];
    }
    assert errors == (if BadProductId(row) then [BAD_PRODUCT_ID] else []);
    var movementType := row.movementType;
    if movementType.None? || movementType.value !in {1, 2, 3} {
      errors := errors + [BAD_TYPE];
    }
    var quantity := row.quantity;
    if quantity.None? || quantity.value <= 0.0 {
      errors := errors + [BAD_QUANTITY];
    }
    ghost var checked := errors;
    assert checked == (if BadProductId(row) then [BAD_PRODUCT_ID] else [])
      + (if BadType(row) then [BAD_TYPE] else [])
      + (if BadQuantity(row) then [BAD_QUANTITY] else []);
    if movementType == Some(2) {
      var product := Find(products, (p: Product) => HasProductId(row, p));
      if product.Some? && quantity.Some? && product.value.stockQuantity < quantity.value {
        errors := errors + ["Yetersiz stok (Mevcut: " + showNumber(product.value.stockQuantity) + ")"];
      }
    }
    assert errors == checked + (match ShortProduct(products, row)
       case Some(p) => ["Yetersiz stok (Mevcut: " + showNumber(p.stockQuantity) + ")"]
       case None => []);
    assert errors == RowErrors(products, row, showNumber);
    v := ValidatedRow(row, |errors| == 0, Join(errors, ", "));
  }

  /** A row is valid exactly when every check passes, and a valid row is the
      one whose error message is empty. */
  lemma ValidIffNoCheckFails(products: seq<Product>, row: BulkRow, showNumber: real -> string)
    ensures Validated(products, row, showNumber).isValid
       <==> !BadProductId(row) && !BadType(row) && !BadQuantity(row) && ShortProduct(products, row).None?
    ensures Validated(products, row, showNumber).isValid <==> Validated(products, row, showNumber).errorMessage == ""
  {
    JoinEmpty(RowErrors(products, row, showNumber), ", ");
  }

  /** Returns and transfers are rejected whatever else the row holds. */
  lemma ReturnAndTransferRejected(products: seq<Product>, row: BulkRow, showNumber: real -> string)
    requires row.movementType == Some(RETURN) || row.movementType == Some(TRANSFER)
    ensures !Validated(products, row, showNumber).isValid
  {
  }

  /** A stock-out of a product that is not in the list passes the stock
      check: with a good id and quantity, the row is valid. */
  lemma UnknownProductStockOutAccepted(products: seq<Product>, row: BulkRow, showNumber: real -> string)
    requires row.movementType == Some(STOCK_OUT)
    requires !BadProductId(row) && !BadQuantity(row)
    requires forall i :: 0 <= i < |products| ==> products[i].id != row.productId.value
    ensures Validated(products, row, showNumber).isValid
  {
  }

  /** A stock-out of a known product holding less than the quantity is
      rejected, with the stock message last. */
  lemma ShortStockRejected(products: seq<Product>, i: int, row: BulkRow, showNumber: real -> string)
    requires 0 <= i < |products| && row.productId == Some(products[i].id)
    requires forall j :: 0 <= j < i ==> products[j].id != products[i].id
    requires row.movementType == Some(STOCK_OUT) && row.quantity.Some? && products[i].stockQuantity < row.quantity.value
    ensures !Validated(products, row, showNumber).isValid
    ensures var errors := RowErrors(products, row, showNumber);
      errors[|errors| - 1] == "Yetersiz stok (Mevcut: " + showNumber(products[i].stockQuantity) + ")"
  {
    var f := Find(products, (p: Product) => HasProductId(row, p));
    var k :| 0 <= k < |products| && products[k] == f.value && HasProductId(row, products[k])
             && forall j :: 0 <= j < k ==> !HasProductId(row, products[j]);
    assert k == i;
  }

  predicate IsValidRow(v: ValidatedRow) {
    v.isValid
  }

  /** The valid and invalid counts shown above the preview. */
  datatype Counts = Counts(valid: nat, invalid: int)

  function CountsOf(imported: seq<ValidatedRow>): (r: Counts)
    ensures r.valid == Count(imported, IsValidRow)
    ensures r.valid + r.invalid == |imported|
    ensures 0 <= r.invalid
    ensures r.invalid == 0 <==> forall i :: 0 <= i < |imported| ==> imported[i].isValid
  {
    var valid := Count(imported, IsValidRow);
    assert valid < |imported| <==> exists i :: 0 <= i < |imported| && !imported[i].isValid by {
      ValidCountBelowLength(imported);
    }
    Counts(valid, |imported| - valid)
  }

  /** Some row is invalid exactly when fewer rows pass than were imported. */
  lemma {:induction false} ValidCountBelowLength(imported: seq<ValidatedRow>)
    ensures Count(imported, IsValidRow) < |imported| <==> exists i :: 0 <= i < |imported| && !imported[i].isValid
    decreases |imported|
  {
    if imported != [] {
      var init := imported[..|imported| - 1];
      ValidCountBelowLength(init);
      if exists i :: 0 <= i < |init| && !init[i].isValid {
        var i :| 0 <= i < |init| && !init[i].isValid;
        assert !imported[i].isValid;
      }
      if exists i :: 0 <= i < |imported| && !imported[i].isValid {
        var i :| 0 <= i < |imported| && !imported[i].isValid;
        if i < |init| {
          assert !init[i].isValid;
        }
      }
    }
  }

  /** An empty text cell is dropped, as `|| undefined` does. */
  function NonEmpty(s: Option<string>): (r: Option<string>)
    ensures r.Some? <==> s.Some? && s.value != ""
    ensures r.Some? ==> r == s
  {
    if s.Some? && s.value != "" then s else None
  }

  /** The movement posted for a valid row, stamped with `now`. */
  function ToMovement(v: ValidatedRow, now: string): (r: StockMovementFormData)
    ensures Some(r.productId) == v.row.productId || v.row.productId.None?
    ensures Some(r.movementType) == v.row.movementType || v.row.movementType.None?
    ensures Some(r.quantity) == v.row.quantity || v.row.quantity.None?
    ensures r.referenceNumber == NonEmpty(v.row.referenceNumber) && r.notes == NonEmpty(v.row.notes)
    ensures r.movementDate == now
  {
    StockMovementFormData(
      v.row.productId.GetOr(0),
      v.row.movementType.GetOr(0),
      v.row.quantity.GetOr(0.0),
      NonEmpty(v.row.referenceNumber),
      NonEmpty(v.row.notes),
      now)
  }

  /** `handleSubmit`: no valid row gives the warning and posts nothing;
      otherwise exactly the valid rows are posted, in order. */
  function Submit(imported: seq<ValidatedRow>, now: string): (r: Result<seq<StockMovementFormData>, string>)
    ensures r.Failure? <==> forall i :: 0 <= i < |imported| ==> !imported[i].isValid
    ensures r.Failure? ==> r.error == "Geçerli kayıt bulunamadı"
    ensures r.Success? ==> |r.value| == CountsOf(imported).valid > 0
    ensures r.Success? ==> forall i :: 0 <= i < |r.value| ==> r.value[i] == ToMovement(Filter(imported, IsValidRow)[i], now)
  {
    var valid := Filter(imported, IsValidRow);
    assert |valid| == 0 <==> forall i :: 0 <= i < |imported| ==> !imported[i].isValid by {
      FilterMembership(imported, IsValidRow);
      if |valid| > 0 {
        assert valid[0] in valid;
      }
      if i :| 0 <= i < |imported| && imported[i].isValid {
        assert imported[i] in imported;
        assert imported[i] in valid;
      }
    }
    if |valid| == 0 then Failure("Geçerli kayıt bulunamadı")
    else Success(Map(valid, (v: ValidatedRow) => ToMovement(v, now)))
  }

  /** Every posted movement comes from a row that passed all checks: its
      product id and quantity are positive and its type is 1, 2 or 3. */
  lemma PostedMovementsAreChecked(products: seq<Product>, rows: seq<BulkRow>, showNumber: real -> string, now: string)
    ensures var imported := Map(rows, (row: BulkRow) => Validated(products, row, showNumber));
      Submit(imported, now).Success? ==>
        forall m :: m in Submit(imported, now).value ==>
          m.productId > 0 && m.quantity > 0.0 && m.movementType in {1, 2, 3}
  {
    var imported := Map(rows, (row: BulkRow) => Validated(products, row, showNumber));
    var valid := Filter(imported, IsValidRow);
    forall v | v in valid
      ensures !BadProductId(v.row) && !BadType(v.row) && !BadQuantity(v.row)
    {
      var i :| 0 <= i < |imported| && imported[i] == v;
      ValidIffNoCheckFails(products, rows[i], showNumber);
    }
    if Submit(imported, now).Success? {
      forall m | m in Submit(imported, now).value
        ensures m.productId > 0 && m.quantity > 0.0 && m.movementType in {1, 2, 3}
      {
        var k :| 0 <= k < |Submit(imported, now).value| && Submit(imported, now).value[k] == m;
        assert valid[k] in valid;
      }
    }
  }

  /** The dialog's state: the step shown, the uploaded file and the checked
      rows. */
  class BulkImport {
    var currentStep: int
    var fileList: seq<string>
    var importedData: seq<ValidatedRow>

    constructor ()
      ensures currentStep == 0 && fileList == [] && importedData == []
    {
      currentStep := 0;
      fileList := [];
      importedData := [];
    }

    /** `beforeUpload`: the rows read from the file are checked one by one
        and kept, the file is listed and the preview step shown. A file that
        cannot be read (`None`) changes nothing. */
    method Upload(file: string, data: Option<seq<BulkRow>>, products: seq<Product>, showNumber: real -> string)
      modifies this
      ensures data.None? ==> currentStep == old(currentStep) && fileList == old(fileList) && importedData == old(importedData)
      ensures data.Some? ==> currentStep == 1 && fileList == [file]
      ensures data.Some? ==> |importedData| == |data.value|
      ensures data.Some? ==> forall i :: 0 <= i < |data.value| ==> importedData[i] == Validated(products, data.value[i], showNumber)
    {
      if data.Some? {
        var rows := data.value;
        var validated: seq<ValidatedRow> := [];
        var i := 0;
        while i < |rows|
          invariant 0 <= i <= |rows|
          invariant |validated| == i
          invariant forall j :: 0 <= j < i ==> validated[j] == Validated(products, rows[j], showNumber)
        {
          var v := ValidateRow(products, rows[i], showNumber);
          validated := validated + [v];
          i := i + 1;
        }
        importedData := validated;
        fileList := [file];
        currentStep := 1;
      }
    }

    /** Removing the file, and `handleReset`, go back to the first step with
        nothing loaded. */
    method Reset()
      modifies this
      ensures currentStep == 0 && fileList == [] && importedData == []
    {
      currentStep := 0;
      fileList := [];
      importedData := [];
    }

    /** The counts of the current rows. */
    function CurrentCounts(): (r: Counts)
      reads this
      ensures r == CountsOf(importedData)
      ensures r.valid == Count(importedData, IsValidRow)
      ensures r.valid + r.invalid == |importedData|
    {
      CountsOf(importedData)
    }
  }
}
