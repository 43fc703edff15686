/** The materials tab of a job: the price a material line is costed at, the
    planned and used cost totals, and the request that adds a material. A
    used quantity can only be entered once the installation is completed
    (status 8). */
module JobMaterialsTab {
  import opened Wrappers
  import opened Types
  import opened Folds

  /** The unit price a material line is costed at: the embedded product's
      current purchase price, unless there is no product or that price is 0
      (falsy), in which case the price stored on the line. */
  function EffectivePrice(m: JobMaterial): (p: real)
    ensures m.product.Some? && m.product.value.purchasePrice != 0.0 ==> p == m.product.value.purchasePrice
    ensures m.product.None? || m.product.value.purchasePrice == 0.0 ==> p == m.unitPrice
  {
    match m.product
    case Some(prod) => if prod.purchasePrice != 0.0 then prod.purchasePrice else m.unitPrice
    case None => m.unitPrice
  }

  /** A zero effective price only ever comes from a zero stored unit price. */
  lemma EffectivePriceZero(m: JobMaterial)
    ensures EffectivePrice(m) == 0.0 ==> m.unitPrice == 0.0
  {
  }

  function PlannedLineCost(m: JobMaterial): real {
    m.plannedQuantity * EffectivePrice(m)
  }

  function UsedLineCost(m: JobMaterial): real {
    m.usedQuantity * EffectivePrice(m)
  }

  /** `plannedCost`: planned quantity times effective price, over all lines. */
  function PlannedCost(ms: seq<JobMaterial>): (r: real)
    ensures ms == [] ==> r == 0.0
    ensures (forall i :: 0 <= i < |ms| ==> ms[i].plannedQuantity >= 0.0 && EffectivePrice(ms[i]) >= 0.0) ==> r >= 0.0
  {
    SumNonNegative(ms, PlannedLineCost);
    Sum(ms, PlannedLineCost)
  }

  /** `usedCost`: used quantity times effective price, over all lines. */
  function UsedCost(ms: seq<JobMaterial>): (r: real)
    ensures ms == [] ==> r == 0.0
    ensures (forall i :: 0 <= i < |ms| ==> ms[i].usedQuantity >= 0.0 && EffectivePrice(ms[i]) >= 0.0) ==> r >= 0.0
  {
    SumNonNegative(ms, UsedLineCost);
    Sum(ms, UsedLineCost)
  }

  /** Adding a line adds exactly its own used and planned cost. */
  lemma CostsAppend(ms: seq<JobMaterial>, m: JobMaterial)
    ensures UsedCost(ms + [m]) == UsedCost(ms) + m.usedQuantity * EffectivePrice(m)
    ensures PlannedCost(ms + [m]) == PlannedCost(ms) + m.plannedQuantity * EffectivePrice(m)
  {
    SumAppend(ms, [m], UsedLineCost);
    SumAppend(ms, [m], PlannedLineCost);
  }

  /** When no line has used more than it planned and prices are not negative,
      the used cost does not exceed the planned cost. */
  lemma UsedCostAtMostPlanned(ms: seq<JobMaterial>)
    requires forall i :: 0 <= i < |ms| ==> ms[i].usedQuantity <= ms[i].plannedQuantity
    requires forall i :: 0 <= i < |ms| ==> EffectivePrice(ms[i]) >= 0.0
    ensures UsedCost(ms) <= PlannedCost(ms)
  {
    forall i | 0 <= i < |ms| ensures UsedLineCost(ms[i]) <= PlannedLineCost(ms[i]) {
      var p := EffectivePrice(ms[i]);
      assert ms[i].usedQuantity * p <= ms[i].plannedQuantity * p;
    }
    SumMonotone(ms, UsedLineCost, PlannedLineCost);
  }

  /** Lines that have used nothing cost nothing: before installation every line
      is added with used quantity 0, so the used cost is 0. */
  lemma {:induction false} NothingUsedCostsNothing(ms: seq<JobMaterial>)
    requires forall i :: 0 <= i < |ms| ==> ms[i].usedQuantity == 0.0
    ensures UsedCost(ms) == 0.0
    decreases |ms|
  {
    if ms != [] {
      NothingUsedCostsNothing(ms[..|ms| - 1]);
    }
  }

  // ---------------------------------------------------------------------
  // The used-quantity gate and the add-material request
  // ---------------------------------------------------------------------

  /** `isInstallationCompleted`: the job is loaded and its status is exactly 8. */
  predicate IsInstallationCompleted(job: Option<Job>) {
    job.Some? && job.value.status == INSTALLATION_COMPLETED
  }

  /** How the used-quantity input is rendered. */
  datatype UsedQuantityInput = UsedQuantityInput(enabled: bool, required: bool, placeholder: string)

  function UsedQuantityInputFor(job: Option<Job>): (r: UsedQuantityInput)
    ensures r.enabled == r.required
    ensures r.enabled <==> job.Some? && job.value.status == 8
  {
    var done := IsInstallationCompleted(job);
    UsedQuantityInput(done, done, if done then "Kullanılan miktar" else "Montaj tamamlandıktan sonra")
  }

  /** Neither a completed (9) nor a cancelled (10) job accepts a used quantity. */
  lemma LaterStatusesLockUsedQuantity(job: Job)
    requires job.status == COMPLETED || job.status == CANCELLED
    ensures !UsedQuantityInputFor(Some(job)).enabled
  {
  }

  /** The validated form values: the product is required, the used quantity
      may be left empty. */
  datatype MaterialFormValues = MaterialFormValues(productId: int, plannedQuantity: real, usedQuantity: Option<real>)

  /** The body posted to add a material; it carries no line total. */
  datatype MaterialPayload = MaterialPayload(
    productId: int,
    plannedQuantity: real,
    usedQuantity: real,
    unitPrice: real,
    isExtra: bool,
    notes: string)

  predicate HasId(id: int, p: Product) {
    p.id == id
  }

  /** `addMutation`: look the product up among all loaded products; fail with
      "Ürün bulunamadı" if it is not there, otherwise post the line priced at
      the product's purchase price, not extra, with empty notes. */
  function AddMaterial(products: seq<Product>, job: Option<Job>, values: MaterialFormValues): (r: Result<MaterialPayload, string>)
    ensures r.Failure? <==> forall i :: 0 <= i < |products| ==> products[i].id != values.productId
    ensures r.Failure? ==> r.error == "Ürün bulunamadı"
    ensures r.Success? ==>
      && r.value.productId == values.productId
      && r.value.plannedQuantity == values.plannedQuantity
      && (exists i :: 0 <= i < |products| && products[i].id == values.productId && r.value.unitPrice == products[i].purchasePrice)
      && !r.value.isExtra
      && r.value.notes == ""
    ensures r.Success? && !IsInstallationCompleted(job) ==> r.value.usedQuantity == 0.0
    ensures r.Success? && IsInstallationCompleted(job) ==> r.value.usedQuantity == values.usedQuantity.GetOr(0.0)
  {
    match Find(products, (p: Product) => HasId(values.productId, p))
    case None => Failure("Ürün bulunamadı")
    case Some(selected) =>
      Success(MaterialPayload(
        values.productId,
        values.plannedQuantity,
        if IsInstallationCompleted(job) then values.usedQuantity.GetOr(0.0) else 0.0,
        selected.purchasePrice,
        false,
        ""))
  }

  /** Every offered product can be added. */
  lemma OfferedProductsCanBeAdded(products: seq<Product>, job: Option<Job>, values: MaterialFormValues)
    requires exists p :: p in ActiveProducts(products) && p.id == values.productId
    ensures AddMaterial(products, job, values).Success?
  {
    var p :| p in ActiveProducts(products) && p.id == values.productId;
    var i :| 0 <= i < |products| && products[i] == p;
  }

  /** A material added for a product is costed, once saved with that product
      embedded and while the product's price is non-zero, at the unit price it
      was posted with: the stored price and the live price agree. */
  lemma AddedMaterialCostedAtPostedPrice(products: seq<Product>, job: Option<Job>, values: MaterialFormValues, saved: JobMaterial)
    requires AddMaterial(products, job, values).Success?
    requires saved.unitPrice == AddMaterial(products, job, values).value.unitPrice
    requires saved.product.Some? && saved.product.value in products && saved.product.value.id == values.productId
    requires forall i, j :: 0 <= i < |products| && 0 <= j < |products| && products[i].id == products[j].id ==> i == j
    ensures EffectivePrice(saved) == saved.unitPrice
  {
    var i :| 0 <= i < |products| && products[i] == saved.product.value;
    var j :| 0 <= j < |products| && products[j].id == values.productId
           && AddMaterial(products, job, values).value.unitPrice == products[j].purchasePrice;
  }
}
