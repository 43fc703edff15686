/** The records the ERP front end exchanges with its back end, and the
    enumeration constants and label tables that go with them. Money and
    quantities are JS numbers (`real` here); ids and enumeration codes are
    integers. Dates are ISO strings passed through unchanged. */
module Types {
  import opened Wrappers
  import opened Folds

  // ---------------------------------------------------------------------
  // Customers and receivables
  // ---------------------------------------------------------------------

  datatype Customer = Customer(
    id: int,
    name: string,
    companyName: Option<string>,
    phoneNumber: string,
    email: string,
    adress: string,
    taxNumber: Option<string>,
    taxOffice: Option<string>,
    notes: Option<string>,
    isActive: bool)

  /** Outstanding receivables split by how long they have been due. */
  datatype AgingBreakdown = AgingBreakdown(
    current: real,
    days30To60: real,
    days60To90: real,
    over90Days: real)

  datatype CustomerReceivableSummary = CustomerReceivableSummary(
    customerId: int,
    customerName: string,
    companyName: Option<string>,
    totalBilled: real,
    totalPaid: real,
    outstandingBalance: real,
    totalJobs: int,
    activeJobs: int,
    aging: AgingBreakdown)

  // ---------------------------------------------------------------------
  // Suppliers, categories, products
  // ---------------------------------------------------------------------

  datatype Supplier = Supplier(
    id: int,
    name: string,
    companyName: string,
    phoneNumber: string,
    contactEmail: string,
    address: string,
    productCategoryId: int,
    paymentTerm: int,
    isActive: bool)

  datatype ProductCategory = ProductCategory(
    id: int,
    name: string,
    description: Option<string>,
    isActive: bool)

  /** A product. `minStockLevel` is not a declared field of the record but two
      pages read it; it is carried separately and is absent unless the back
      end sends it. */
  datatype Product = Product(
    id: int,
    name: string,
    code: string,
    barcode: Option<string>,
    categoryId: int,
    category: Option<ProductCategory>,
    description: Option<string>,
    supplierId: int,
    supplier: Option<Supplier>,
    purchasePrice: real,
    salePrice: real,
    profitMargin: real,
    stockQuantity: real,
    minimumStockLevel: real,
    unit: string,
    isActive: bool,
    minStockLevel: Option<real>)

  /** The low-stock test the product pages share, `stockQuantity <=
      minStockLevel`: a comparison with an absent level is false. */
  predicate AtOrBelowMinStockLevel(p: Product) {
    p.minStockLevel.Some? && p.stockQuantity <= p.minStockLevel.value
  }

  /** The products the low-stock counters and lists take: active ones at or
      below their minimum level. */
  predicate ActiveAndLowOnStock(p: Product) {
    AtOrBelowMinStockLevel(p) && p.isActive
  }

  /** A product's stock value, `stockQuantity * purchasePrice`: the figure
      the dashboard total and the per-category report add up. */
  function StockValue(p: Product): (r: real)
    ensures p.stockQuantity >= 0.0 && p.purchasePrice >= 0.0 ==> r >= 0.0
    ensures p.stockQuantity == 0.0 || p.purchasePrice == 0.0 ==> r == 0.0
  {
    p.stockQuantity * p.purchasePrice
  }

  /** The products a product select offers: the active ones, in list order. */
  function ActiveProducts(products: seq<Product>): (r: seq<Product>)
    ensures forall p :: p in r <==> p in products && p.isActive
  {
    FilterMembership(products, (p: Product) => p.isActive);
    Filter(products, (p: Product) => p.isActive)
  }

  // ---------------------------------------------------------------------
  // Stock movements
  // ---------------------------------------------------------------------

  const STOCK_IN: int := 1
  const STOCK_OUT: int := 2
  const ADJUSTMENT: int := 3
  const RETURN: int := 4
  const TRANSFER: int := 5

  /** A stock movement. The type is declared as one of 1..5, but nothing checks
      what the back end sends, so it is an `int` here and the pages' fallbacks
      for other codes are part of the model. */
  datatype StockMovement = StockMovement(
    id: int,
    productId: int,
    product: Option<Product>,
    movementType: int,
    quantity: real,
    previousStock: real,
    newStock: real,
    referenceNumber: Option<string>,
    notes: Option<string>,
    movementDate: string)

  /** The record posted to create a stock movement: a movement without its
      id, product, stock figures and author. */
  datatype StockMovementFormData = StockMovementFormData(
    productId: int,
    movementType: int,
    quantity: real,
    referenceNumber: Option<string>,
    notes: Option<string>,
    movementDate: string)

  // ---------------------------------------------------------------------
  // Jobs
  // ---------------------------------------------------------------------

  /** The ten workflow states of a job. */
  type JobStatus = s: int | 1 <= s <= 10 witness 1

  const QUOTE_SENT: JobStatus := 1
  const QUOTE_APPROVED: JobStatus := 2
  const PAYMENT_PENDING: JobStatus := 3
  const PAYMENT_RECEIVED: JobStatus := 4
  const MATERIAL_PREPARING: JobStatus := 5
  const INSTALLATION_SCHEDULED: JobStatus := 6
  const IN_PROGRESS: JobStatus := 7
  const INSTALLATION_COMPLETED: JobStatus := 8
  const COMPLETED: JobStatus := 9
  const CANCELLED: JobStatus := 10

  const JobStatusLabels: map<int, string> := map[
    1 := "Teklif Gönderildi",
    2 := "Teklif Onaylandı",
    3 := "Ödeme Bekleniyor",
    4 := "Ödeme Alındı",
    5 := "Malzeme Hazırlanıyor",
    6 := "Montaj Planlandı",
    7 := "İş Devam Ediyor",
    8 := "Montaj Tamamlandı",
    9 := "İş Tamamlandı",
    10 := "İptal Edildi"]

  const JobStatusColors: map<int, string> := map[
    1 := "default",
    2 := "blue",
    3 := "orange",
    4 := "cyan",
    5 := "purple",
    6 := "geekblue",
    7 := "processing",
    8 := "lime",
    9 := "success",
    10 := "error"]

  /** Payment kinds 1..5: cash, instalment, bank transfer, credit card, deferred. */
  type PaymentType = t: int | 1 <= t <= 5 witness 1

  const PaymentTypeLabels: map<int, string> := map[
    1 := "Peşin",
    2 := "Taksit",
    3 := "Havale/EFT",
    4 := "Kredi Kartı",
    5 := "Vadeli"]

  /** Expense kinds 1..6: fuel, meals, lodging, transport, staff, other. */
  type ExpenseType = t: int | 1 <= t <= 6 witness 1

  const ExpenseTypeLabels: map<int, string> := map[
    1 := "Mazot",
    2 := "Yemek",
    3 := "Konaklama",
    4 := "Ulaşım",
    5 := "Personel",
    6 := "Diğer"]

  /** Every job status has a label and a colour, and nothing else has. */
  lemma JobStatusTablesCover()
    ensures forall s: int :: s in JobStatusLabels <==> 1 <= s <= 10
    ensures forall s: int :: s in JobStatusColors <==> 1 <= s <= 10
  {
  }

  /** Every payment type and every expense type has a label, and nothing else has. */
  lemma PaymentAndExpenseTablesCover()
    ensures forall t: int :: t in PaymentTypeLabels <==> 1 <= t <= 5
    ensures forall t: int :: t in ExpenseTypeLabels <==> 1 <= t <= 6
  {
  }

  /** The ten status labels are pairwise different, so a label names one status. */
  lemma JobStatusLabelsDistinct()
    ensures forall a, b :: a in JobStatusLabels && b in JobStatusLabels && a != b ==> JobStatusLabels[a] != JobStatusLabels[b]
  {
  }

  datatype JobMaterial = JobMaterial(
    id: int,
    jobId: int,
    productId: int,
    product: Option<Product>,
    plannedQuantity: real,
    usedQuantity: real,
    unitPrice: real,
    totalPrice: real,
    isExtra: bool,
    notes: Option<string>)

  datatype JobPayment = JobPayment(
    id: int,
    jobId: int,
    amount: real,
    paymentType: PaymentType,
    paymentDate: string,
    installmentCount: Option<int>,
    dueDate: Option<string>,
    isPaid: bool,
    paidDate: Option<string>,
    notes: Option<string>,
    receiptNumber: Option<string>)

  datatype JobExpense = JobExpense(
    id: int,
    jobId: int,
    expenseType: ExpenseType,
    description: string,
    amount: real,
    expenseDate: string,
    notes: Option<string>,
    receiptNumber: Option<string>)

  /** A job with the related rows the detail endpoint embeds. */
  datatype Job = Job(
    id: int,
    customerId: int,
    customer: Option<Customer>,
    jobNumber: string,
    title: string,
    description: Option<string>,
    address: string,
    scheduledDate: string,
    startDate: Option<string>,
    completionDate: Option<string>,
    status: JobStatus,
    totalAmount: real,
    discountAmount: Option<real>,
    finalAmount: real,
    notes: Option<string>,
    isActive: bool,
    materials: Option<seq<JobMaterial>>,
    payments: Option<seq<JobPayment>>,
    expenses: Option<seq<JobExpense>>)

  /** What the job form submits: a job without its number, final amount and
      related rows (those are the server's to compute). */
  datatype JobFormData = JobFormData(
    customerId: int,
    title: string,
    description: Option<string>,
    address: string,
    scheduledDate: string,
    startDate: Option<string>,
    completionDate: Option<string>,
    status: JobStatus,
    totalAmount: real,
    discountAmount: Option<real>,
    notes: Option<string>,
    isActive: bool)

  /** A material row as posted; the line total is the server's to compute. */
  datatype JobMaterialFormData = JobMaterialFormData(
    jobId: int,
    productId: int,
    plannedQuantity: real,
    usedQuantity: real,
    unitPrice: real,
    isExtra: bool,
    notes: Option<string>)

  datatype JobPaymentFormData = JobPaymentFormData(
    jobId: int,
    amount: real,
    paymentType: PaymentType,
    paymentDate: string,
    installmentCount: Option<int>,
    dueDate: Option<string>,
    isPaid: bool,
    paidDate: Option<string>,
    notes: Option<string>,
    receiptNumber: Option<string>)

  datatype JobExpenseFormData = JobExpenseFormData(
    jobId: int,
    expenseType: ExpenseType,
    description: string,
    amount: real,
    expenseDate: string,
    notes: Option<string>,
    receiptNumber: Option<string>)

  /** A loosely typed JS value, as held in query-parameter objects. */
  datatype JsValue = Undefined | Null | Num(n: real) | Str(s: string) | Bool(b: bool)
}
