/** The create/edit product dialog: the profit and margin figures derived
    from the two prices, the margin colour bands, and the defaults a new
    product opens with. The prices and figures are dialog state, kept by a
    class whose methods are the dialog's handlers. */
module ProductModal {
  import opened Wrappers
  import opened Types
  import opened Folds

  /** The profit amount and the margin percent shown for two prices. */
  datatype ProfitFigures = ProfitFigures(amount: real, margin: real)

  /** `calculateProfit`: with a positive purchase price, the difference of
      the prices and that difference as a percentage of the purchase price;
      otherwise both 0. */
  function Profit(purchase: real, sale: real): (r: ProfitFigures)
    ensures purchase > 0.0 ==> r.amount == sale - purchase && r.margin * purchase == r.amount * 100.0
    ensures purchase <= 0.0 ==> r == ProfitFigures(0.0, 0.0)
  {
    if purchase > 0.0 then
      var profit := sale - purchase;
      ProfitFigures(profit, profit / purchase * 100.0)
    else ProfitFigures(0.0, 0.0)
  }

  /** The margin has the sign of the profit. */
  lemma MarginSignFollowsProfit(purchase: real, sale: real)
    requires purchase > 0.0
    ensures Profit(purchase, sale).margin > 0.0 <==> Profit(purchase, sale).amount > 0.0
    ensures Profit(purchase, sale).margin == 0.0 <==> Profit(purchase, sale).amount == 0.0
    ensures Profit(purchase, sale).margin < 0.0 <==> Profit(purchase, sale).amount < 0.0
  {
    var f := Profit(purchase, sale);
    if f.margin > 0.0 { assert f.margin * purchase > 0.0; }
    if f.margin < 0.0 { assert (-f.margin) * purchase > 0.0; }
  }

  /** The three colour bands of a margin. */
  datatype MarginBand = Good | Fair | Poor

  /** At least 20% is good, at least 10% fair, anything less poor. */
  function Band(margin: real): (r: MarginBand)
    ensures r == Good <==> margin >= 20.0
    ensures r == Fair <==> 10.0 <= margin < 20.0
    ensures r == Poor <==> margin < 10.0
  {
    if margin >= 20.0 then Good else if margin >= 10.0 then Fair else Poor
  }

  /** The indicator card's background and border colours. */
  function BandColors(b: MarginBand): (r: (string, string))
    ensures r.0 != r.1
    ensures r.1 == "#ff4d4f" <==> b == Poor
  {
    match b
    case Good => ("#f6ffed", "#52c41a")
    case Fair => ("#fff7e6", "#faad14")
    case Poor => ("#fff1f0", "#ff4d4f")
  }

  /** A margin of 20% or more is the same as selling for at least 1.2 times
      the purchase price. */
  lemma GoodBandIsTwentyPercentMarkup(purchase: real, sale: real)
    requires purchase > 0.0
    ensures Band(Profit(purchase, sale).margin) == Good <==> sale >= 1.2 * purchase
  {
    var f := Profit(purchase, sale);
    if f.margin >= 20.0 {
      assert f.margin * purchase >= 20.0 * purchase;
    } else {
      assert (20.0 - f.margin) * purchase > 0.0;
    }
  }

  /** The fields a new product's form is filled with. */
  datatype NewProductDefaults = NewProductDefaults(isActive: bool, stockQuantity: real, minimumStockLevel: real, unit: string)

  const NEW_PRODUCT_DEFAULTS: NewProductDefaults := NewProductDefaults(true, 0.0, 10.0, "Adet")

  /** What the form holds: nothing yet, an edited product's values, or the
      new-product defaults. */
  datatype FormContents = Blank | Editing(product: Product) | Creating(defaults: NewProductDefaults)

  /** The categories offered: the active ones. */
  function ActiveCategories(categories: seq<ProductCategory>): (r: seq<ProductCategory>)
    ensures forall c :: c in r <==> c in categories && c.isActive
  {
    FilterMembership(categories, (c: ProductCategory) => c.isActive);
    Filter(categories, (c: ProductCategory) => c.isActive)
  }

  /** The dialog's pricing state. */
  class PricingState {
    var form: FormContents
    var purchasePrice: real
    var salePrice: real
    var profitMargin: real
    var profitAmount: real

    /** The shown figures are always those of the current prices. */
    predicate Valid()
      reads this
    {
      ProfitFigures(profitAmount, profitMargin) == Profit(purchasePrice, salePrice)
    }

    constructor ()
      ensures Valid()
      ensures form == Blank && purchasePrice == 0.0 && salePrice == 0.0
      ensures profitAmount == 0.0 && profitMargin == 0.0
    {
      form := Blank;
      purchasePrice := 0.0;
      salePrice := 0.0;
      profitMargin := 0.0;
      profitAmount := 0.0;
    }

    /** `calculateProfit`, writing the two figures. */
    method CalculateProfit(purchase: real, sale: real)
      modifies this
      ensures ProfitFigures(profitAmount, profitMargin) == Profit(purchase, sale)
      ensures form == old(form) && purchasePrice == old(purchasePrice) && salePrice == old(salePrice)
    {
      if purchase > 0.0 {
        var profit := sale - purchase;
        var marginPercent := profit / purchase * 100.0;
        profitAmount := profit;
        profitMargin := marginPercent;
      } else {
        profitAmount := 0.0;
        profitMargin := 0.0;
      }
    }

    /** The effect of opening the dialog: an edited product loads its prices
        and their figures, a new one gets the defaults and zeroes. A closed
        dialog changes nothing. */
    method Open(open: bool, product: Option<Product>)
      requires Valid()
      modifies this
      ensures Valid()
      ensures !open ==> (form == old(form) && purchasePrice == old(purchasePrice) && salePrice == old(salePrice)
                         && profitAmount == old(profitAmount) && profitMargin == old(profitMargin))
      ensures open && product.Some? ==> (form == Editing(product.value)
        && purchasePrice == product.value.purchasePrice && salePrice == product.value.salePrice)
      ensures open && product.None? ==> (form == Creating(NEW_PRODUCT_DEFAULTS)
        && purchasePrice == 0.0 && salePrice == 0.0 && profitAmount == 0.0 && profitMargin == 0.0)
    {
      if open {
        match product
        case Some(p) =>
          form := Editing(p);
          purchasePrice := p.purchasePrice;
          salePrice := p.salePrice;
          CalculateProfit(p.purchasePrice, p.salePrice);
        case None =>
          form := Creating(NEW_PRODUCT_DEFAULTS);
          purchasePrice := 0.0;
          salePrice := 0.0;
          profitMargin := 0.0;
          profitAmount := 0.0;
      }
    }

    /** `handlePurchasePriceChange`: a cleared input counts as 0; the figures
        are recomputed against the stored sale price. */
    method HandlePurchasePriceChange(value: Option<real>)
      modifies this
      ensures Valid()
      ensures purchasePrice == value.GetOr(0.0) && salePrice == old(salePrice) && form == old(form)
    {
      var purchase := value.GetOr(0.0);
      purchasePrice := purchase;
      CalculateProfit(purchase, salePrice);
    }

    /** `handleSalePriceChange`: a cleared input counts as 0; the figures are
        recomputed against the stored purchase price. */
    method HandleSalePriceChange(value: Option<real>)
      modifies this
      ensures Valid()
      ensures salePrice == value.GetOr(0.0) && purchasePrice == old(purchasePrice) && form == old(form)
    {
      var sale := value.GetOr(0.0);
      salePrice := sale;
      CalculateProfit(purchasePrice, sale);
    }
  }
}
