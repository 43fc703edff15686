# ERP front end — a Dafny model

This project models the business logic in the React/antd front end of a
small ERP for a security-camera installer. That front end covers
customers and their receivables, suppliers, products and categories,
stock movements, stock reports, and installation jobs with their
materials, payments and expenses.

The pages hold almost all of the logic:

- the figures they compute (the profit and margin of a product, the final
  amount of a job, totals of payments, expenses and materials, stock
  values, receivable percentages, payment progress);
- the searches and filters over the lists;
- the low-stock rules;
- the three aggregations of the stock report page, over JavaScript
  `Map`s;
- the checks on a spreadsheet of bulk stock movements;
- the rows the spreadsheet exports write;
- the request parameters the job service cleans before it sends them.

How the model is built:

- **Pure computations** are functions with contracts. Lemmas relate each
  one to a partner: an independent specification, an invariant it keeps,
  another page's version of the same figure, or the effect of adding one
  element.
- **Step-by-step code** is imperative Dafny:
  - The stock report's three `forEach` loops over a `Map` are methods with
    loop invariants. They are proved equal to specification functions in
    the `Folds` module:
    - `Keys`: keys in order of first appearance;
    - `Total`: the per-key sum;
    - `GroupSum`: both together.
  - Bulk row validation pushes errors onto a list, one check after the
    other.
  - Job-service parameter cleaning inserts the non-blank keys into a fresh
    map, one key at a time.
- **React component state** is a class whose methods are the component's
  handlers, with `modifies` clauses:
  - the job dialog;
  - the product dialog's pricing;
  - the stock movement dialog;
  - the low-stock list's dialog;
  - the bulk import dialog;
  - the jobs page's filters.

Modelling conventions:

- Money and quantities are `real`, as JavaScript numbers are. Ids, codes
  and counts are `int`.
- Fields the record types declare optional are `Option`. An empty string
  is falsy wherever the code relies on `||` or `&&`.
- `x || 0` on a required number is the identity, because NaN is outside
  the model.
- A stock movement's `type` field is called `movementType`, because
  `type` is a Dafny keyword.
- Library behaviour outside the model is a parameter:
  - `toLowerCase` is `lower`;
  - dayjs' `DD/MM` of a movement date is `dayMonthOf`;
  - the export's date text is `formatDate`;
  - the number in the "Yetersiz stok" message is `showNumber`;
  - the current time is `now`.
- The product pages read `minStockLevel`, a field the `Product` record does
  not declare. It is carried as an optional field, and a comparison with an
  absent level is false, as it is in JavaScript.

Where the code and its documentation disagree, the model follows the code:

- **Remaining payment.**
  - The job detail page computes it as the final amount less *all*
    payments, with no floor at 0 (`JobDetail.DetailFigures`). So it can be
    negative (`JobDetail.RemainingMayBeNegative`).
  - The payments tab floors at 0 and counts *paid* payments only
    (`JobPaymentsTab.Remaining`).
  - The two are related by `JobDetail.DetailRemainingAtMostTabRemaining`,
    `JobDetail.RemainingFiguresDiffer` and
    `JobDetail.RemainingFiguresAgreeWhenAllPaid`.
- **Job status changes.** The code has no transition rules: any of the ten
  statuses can be sent from any status (`JobDetail.AnyStatusCanBeSent`).
- **The over-90-days alert.** It is nested inside the card that appears
  only while a balance is outstanding (`CustomerFinancialDetail.PageView`).
- **The stock dialog's missing amount.** Its `max(0, …)` never bites
  (`StockMovementModal.ShortageIsDifference`). The low-stock list's shortage
  is not floored at all.
- **The stock report's category filter.** It compares only the embedded
  `category.id`, never `categoryId`.
- **The stock report's daily chart.** It keys days by `DD/MM`, so the same
  day of different years falls into one point.

## Model

| member | source | states |
|---|---|---|
| Types.ActiveProducts | src/pages/Stock/StockMovementModal.tsx:142-148 | the products a product select offers are exactly the active ones |
| Types.AtOrBelowMinStockLevel | src/pages/Products/Products.tsx:106 | a minimum level is set and the stock is at or below it (a definition) |
| Types.ActiveAndLowOnStock | src/pages/Dashboard/Dashboard.tsx:51 | low on stock and active (a definition) |
| Types.StockValue | src/pages/Dashboard/Dashboard.tsx:45-47 | stock × purchase price: not negative for non-negative factors, 0 when either is 0 |
| Types.JobStatusTablesCover | src/types/index.ts:196-220 | the status label and colour tables have an entry for exactly the statuses 1..10 |
| Types.PaymentAndExpenseTablesCover | src/types/index.ts:233-260 | the payment type labels cover exactly 1..5 and the expense type labels exactly 1..6 |
| Types.JobStatusLabelsDistinct | src/types/index.ts:196-207 | no two statuses share a label |
| Text.Round | src/pages/Jobs/JobsTable.tsx:147-150 | `Math.round`: an integer within half of x, halves rounded up |
| Text.IntToStringInjective | src/pages/Products/Products.tsx:98-99 | two ids with the same decimal text are the same id, because the text parses back to the number |
| CustomersPage.FilteredCustomers | src/pages/Customer/Customer.tsx:59-68 | a customer is listed iff it is in the list and the lower-cased term occurs in its name, company name or e-mail, or the term occurs in its phone; nothing before the list loads |
| CustomersPage.FilteredCustomersKeepsOrder | src/pages/Customer/Customer.tsx:59-68 | the search distributes over concatenation, so list order is kept |
| CustomersPage.EmptyTermKeepsAll | src/pages/Customer/Customer.tsx:59-68 | an empty term lists every customer, in order |
| CustomersPage.PhoneMatchIgnoresCase | src/pages/Customer/Customer.tsx:67 | a term found in the phone number keeps the customer whatever lower-casing does |
| CustomersPage.CustomerMatches | src/pages/Customer/Customer.tsx:61-67 | the search predicate: lower-cased term in name, company name or e-mail, raw term in phone (a definition) |
| CustomerReceivables.BuildLookupMap | src/pages/Customer/CustomerTableWithReceivables.tsx:36-38 | the `forEach` of `set` leaves the lookup map specified by `LookupMap`; no summaries leave it empty |
| CustomerReceivables.LookupMap | src/pages/Customer/CustomerTableWithReceivables.tsx:36-38 | every entry is stored under its own customer id, and the last summary is the one held for its id |
| CustomerReceivables.LookupMapKeys | src/pages/Customer/CustomerTableWithReceivables.tsx:37-38 | the map has an entry for exactly the ids some summary carries, and each entry is a summary stored under its own id |
| CustomerReceivables.LookupMapLastWins | src/pages/Customer/CustomerTableWithReceivables.tsx:38 | a summary that no later summary shares an id with is the one the map holds |
| CustomerReceivables.SummaryFor | src/pages/Customer/CustomerTableWithReceivables.tsx:85 | a row finds a summary iff its id is in the map, and it is that entry |
| CustomerReceivables.BilledCell | src/pages/Customer/CustomerTableWithReceivables.tsx:84-92 | spinner iff loading; otherwise the billed total, or "₺0.00" without a summary |
| CustomerReceivables.PaidCell | src/pages/Customer/CustomerTableWithReceivables.tsx:104-112 | spinner iff loading; otherwise the paid total, or "₺0.00" without a summary |
| CustomerReceivables.BilledOf | src/pages/Customer/CustomerTableWithReceivables.tsx:94-95 | the billed total, 0 without a summary |
| CustomerReceivables.BalanceOf | src/pages/Customer/CustomerTableWithReceivables.tsx:123 | the outstanding balance, 0 without a summary |
| CustomerReceivables.BalanceCellOf | src/pages/Customer/CustomerTableWithReceivables.tsx:119-137 | spinner iff loading; otherwise the balance, red iff it is positive, else green |
| CustomerReceivables.BilledOrder | src/pages/Customer/CustomerTableWithReceivables.tsx:93-97 | negative iff the first billed total is smaller, 0 iff they are equal |
| CustomerReceivables.BalanceOrder | src/pages/Customer/CustomerTableWithReceivables.tsx:138-142 | negative iff the first balance is smaller, 0 iff they are equal |
| CustomerReceivables.OrdersAntisymmetric | src/pages/Customer/CustomerTableWithReceivables.tsx:93-142 | both sorters are antisymmetric, and two customers without summaries compare equal |
| CustomerReceivables.DefaultOrder | src/pages/Customer/CustomerTableWithReceivables.tsx:138-143 | the default descending order is a permutation of the rows with balances non-increasing |
| CustomerReceivables.EmailText | src/pages/Customer/CustomerTableWithReceivables.tsx:74 | the address, or "-" when it is empty |
| CustomerFinancialDetail.AgingRows | src/pages/Customer/CustomerFinancialDetail.tsx:57-82 | four rows, youngest first, each carrying its bucket's amount |
| CustomerFinancialDetail.RowPercentage | src/pages/Customer/CustomerFinancialDetail.tsx:108-112 | with a positive balance, percentage × balance = amount × 100; otherwise 0 |
| CustomerFinancialDetail.PercentagesSumTo100 | src/pages/Customer/CustomerFinancialDetail.tsx:108-112 | the four percentages add up to 100 iff the buckets add up to the balance |
| CustomerFinancialDetail.PageView | src/pages/Customer/CustomerFinancialDetail.tsx:46-275 | "not found" iff customer or summary is missing; the aging card iff the balance is positive; the over-90 alert iff that card shows and something is over 90 days; the no-debt card iff the balance is 0 |
| CustomerFinancialDetail.Title | src/pages/Customer/CustomerFinancialDetail.tsx:124-126 | the name and a space, then "- " and the company name only when it is non-empty |
| CustomerFinancialDetail.CardsExclusive | src/pages/Customer/CustomerFinancialDetail.tsx:218-275 | the aging and no-debt cards never show together; a negative balance shows neither |
| CustomerFinancialDetail.Over90AlertNeedsBalance | src/pages/Customer/CustomerFinancialDetail.tsx:218-266 | overdue receivables raise no alert without an outstanding balance |
| Dashboard.CountCardOf | src/pages/Dashboard/Dashboard.tsx:39-41 | total is the list length and active the number of entries with `isActive`, so at most total; both 0 before the list loads |
| Dashboard.AllActiveCountsAll | src/pages/Dashboard/Dashboard.tsx:40-42 | when every entry is active, the active count is the total |
| Dashboard.InactiveCountsInactive | src/pages/Dashboard/Dashboard.tsx:39-41 | total − active is the number of inactive entries |
| Dashboard.CustomerCard | src/pages/Dashboard/Dashboard.tsx:39 | the number of loaded customers and of those with `isActive`; 0 and 0 before loading |
| Dashboard.SupplierCard | src/pages/Dashboard/Dashboard.tsx:40 | the number of loaded suppliers and of those with `isActive`; 0 and 0 before loading |
| Dashboard.ProductCard | src/pages/Dashboard/Dashboard.tsx:41 | the number of loaded products and of those with `isActive`; 0 and 0 before loading |
| Dashboard.TotalStockValue | src/pages/Dashboard/Dashboard.tsx:45-47 | the sum of stock × purchase price over the products, 0 before loading |
| Dashboard.TotalStockValueProperties | src/pages/Dashboard/Dashboard.tsx:45-47 | adding a product adds its stock value, and any permutation gives the same total |
| Dashboard.TotalStockValueNonNegative | src/pages/Dashboard/Dashboard.tsx:45-47 | no negative quantity or price gives a non-negative total |
| Dashboard.LowStockProducts | src/pages/Dashboard/Dashboard.tsx:50-52 | exactly the active products at or below their minimum level; its length is the products page's count |
| Dashboard.LowStockProductsKeepsOrder | src/pages/Dashboard/Dashboard.tsx:50-52 | the list of a concatenation is the concatenation of the lists, so input order and multiplicity are kept |
| Dashboard.LowStockViewOf | src/pages/Dashboard/Dashboard.tsx:147-199 | the table shows iff the count is positive, and the count is amber exactly then |
| Dashboard.LowStockAgreesWithProductsPage | src/pages/Dashboard/Dashboard.tsx:50-52 | the dashboard's list and the products page's counter agree, and the table shows iff some active product is low |
| ProductCategoriesPage.FilteredCategories | src/pages/ProductCategories/ProductCategories.tsx:68-73 | a category is listed iff the lower-cased term occurs in its name or description |
| ProductCategoriesPage.FilteredCategoriesKeepsOrder | src/pages/ProductCategories/ProductCategories.tsx:68-73 | the search distributes over concatenation |
| ProductCategoriesPage.CategoryMatches | src/pages/ProductCategories/ProductCategories.tsx:68-73 | the search predicate: lower-cased term in name or description (a definition) |
| ProductCategoriesPage.CategoryStats | src/pages/ProductCategories/ProductCategories.tsx:76-78 | total, active and inactive counts, inactive = total − active ≥ 0 |
| ProductCategoriesPage.InactiveCountsInactive | src/pages/ProductCategories/ProductCategories.tsx:76-78 | the inactive figure is the number of inactive categories |
| ProductModal.Profit | src/pages/Products/ProductModal.tsx:55-65 | with a positive purchase price, profit = sale − purchase and margin × purchase = profit × 100; otherwise both 0 |
| ProductModal.MarginSignFollowsProfit | src/pages/Products/ProductModal.tsx:55-65 | the margin is positive, zero or negative exactly as the profit is |
| ProductModal.Band | src/pages/Products/ProductModal.tsx:328-380 | good iff margin ≥ 20, fair iff 10 ≤ margin < 20, poor iff margin < 10 |
| ProductModal.BandColors | src/pages/Products/ProductModal.tsx:327-338 | background and border differ, and the border is red exactly for a poor margin |
| ProductModal.GoodBandIsTwentyPercentMarkup | src/pages/Products/ProductModal.tsx:55-65 | the good band is exactly a sale price of at least 1.2 × the purchase price |
| ProductModal.ActiveCategories | src/pages/Products/ProductModal.tsx:136 | the categories offered are exactly the active ones |
| ProductModal.PricingState.constructor | src/pages/Products/ProductModal.tsx:49-52 | all four figures start at 0 and the shown figures match the prices |
| ProductModal.PricingState.CalculateProfit | src/pages/Products/ProductModal.tsx:55-65 | writes exactly `Profit(purchase, sale)` into the two figures |
| ProductModal.PricingState.Open | src/pages/Products/ProductModal.tsx:67-88 | editing loads the product's prices and their figures; a new product gets the defaults and zeroes; closed changes nothing |
| ProductModal.PricingState.HandlePurchasePriceChange | src/pages/Products/ProductModal.tsx:123-127 | a cleared input is 0; the figures stay those of the current prices |
| ProductModal.PricingState.HandleSalePriceChange | src/pages/Products/ProductModal.tsx:129-133 | a cleared input is 0; the figures stay those of the current prices |
| ProductTable.SupplierName | src/pages/Products/ProductTable.tsx:29-32 | the first supplier with the id gives its company name, else its name, else "Bilinmiyor"; an unknown id gives "Bilinmiyor" |
| ProductTable.SupplierNamePrefersCompany | src/pages/Products/ProductTable.tsx:29-32 | the first supplier with the id gives its company name when it has one |
| ProductTable.CategoryName | src/pages/Products/ProductTable.tsx:35-38 | the first category with the id gives its name, or "Bilinmiyor" when that name is empty; an unknown id gives "Bilinmiyor" |
| ProductTable.MarginTagColor | src/pages/Products/ProductTable.tsx:101 | green, orange and red on the same bands as the product dialog |
| ProductTable.StockCellOf | src/pages/Products/ProductTable.tsx:113-121 | the icon, the amber colour and the low-stock row class appear iff the stock is at or below the minimum level |
| ProductTable.LowStockMarksAgree | src/pages/Products/ProductTable.tsx:199 | icon and row class agree; neither appears without a minimum level |
| ProductsPage.FilteredProducts | src/pages/Products/Products.tsx:90-103 | a product is listed iff it matches the search (name, code or barcode) and the category filter |
| ProductsPage.FilteredProductsKeepsOrder | src/pages/Products/Products.tsx:90-103 | the filter distributes over concatenation |
| ProductsPage.MatchesSearch | src/pages/Products/Products.tsx:91-94 | lower-cased term in name, code or barcode (a definition) |
| ProductsPage.MatchesCategory | src/pages/Products/Products.tsx:96-98 | "all", or the category id's decimal text equals the filter (a definition) |
| ProductsPage.EmptyTermAllCategoriesKeepsAll | src/pages/Products/Products.tsx:90-103 | an empty term under "all" lists every product |
| ProductsPage.CategoryFilterSelectsOneCategory | src/pages/Products/Products.tsx:97-99 | choosing a category's id text lists exactly that category's matching products |
| ProductsPage.LowStockCount | src/pages/Products/Products.tsx:105-107 | exactly the number of active products at or below their level; 0 iff there are none |
| ProductsPage.NoLevelNotCounted | src/pages/Products/Products.tsx:105-107 | a product without a minimum level is never counted |
| StockMovementModal.UnitOf | src/pages/Stock/StockMovementModal.tsx:159 | the unit, or "Adet" when it is empty |
| StockMovementModal.StockInfoOf | src/pages/Stock/StockMovementModal.tsx:152-189 | warning iff stock ≤ minimum; the missing amount appears exactly then and is never negative |
| StockMovementModal.ShortageIsDifference | src/pages/Stock/StockMovementModal.tsx:166-174 | when shown, the missing amount is exactly minimum − stock |
| StockMovementModal.AlertType | src/pages/Stock/StockMovementModal.tsx:180-185 | "warning" iff the summary warns, else "success" |
| StockMovementModal.MinQuantity | src/pages/Stock/StockMovementModal.tsx:214-221 | 0 iff the type is an adjustment, otherwise 1 |
| StockMovementModal.Valid | src/pages/Stock/StockMovementModal.tsx:129-221 | product and type chosen, quantity at least `MinQuantity` (a definition) |
| StockMovementModal.QuantityLabel | src/pages/Stock/StockMovementModal.tsx:209-213 | "Yeni Stok Miktarı" iff adjustment, else "Miktar" |
| StockMovementModal.ZeroOnlyForAdjustment | src/pages/Stock/StockMovementModal.tsx:214-221 | a zero quantity is accepted iff the type is an adjustment |
| StockMovementModal.SubmitData | src/pages/Stock/StockMovementModal.tsx:86-94 | a record is posted iff the form is valid; it carries the form's values unchanged, stamped with now |
| StockMovementModal.MovementForm.constructor | src/pages/Stock/StockMovementModal.tsx:35-38 | empty form, nothing selected |
| StockMovementModal.MovementForm.Open | src/pages/Stock/StockMovementModal.tsx:40-58 | opening clears the form; a preselected non-zero id is chosen with "stock in"; closed changes nothing |
| StockMovementModal.MovementForm.HandleProductChange | src/pages/Stock/StockMovementModal.tsx:96-99 | the id is stored; the summary product is a listed product with that id, absent iff none exists |
| StockMovementModal.MovementForm.HandleTypeChange | src/pages/Stock/StockMovementModal.tsx:101-103 | the type is stored and drives the quantity rule |
| StockMovementModal.MovementForm.Submission | src/pages/Stock/StockMovementModal.tsx:86-94 | the dialog posts iff its current values are valid |
| StockMovementModal.PreselectedPostsStockIn | src/pages/Stock/StockMovementModal.tsx:46-53 | a preselected product posts a stock entry once a quantity of at least 1 is entered |
| StockMovementTable.CategoryName | src/pages/Stock/StockMovementTable.tsx:31-42 | the embedded name when non-empty; otherwise a listed category with the product's id; otherwise "-" |
| StockMovementTable.CategoryLookedUpById | src/pages/Stock/StockMovementTable.tsx:35-40 | without an embedded name, the first category with the id names it |
| StockMovementTable.CategoryCellOf | src/pages/Stock/StockMovementTable.tsx:97-104 | a bare "-" iff the name is "-", otherwise a tag with the name |
| StockMovementTable.MovementTypeTag | src/pages/Stock/StockMovementTable.tsx:44-67 | each of the five codes has its own label, colour and arrow; exactly the other codes show "Bilinmiyor" |
| StockMovementTable.TypeLabelsDistinct | src/pages/Stock/StockMovementTable.tsx:44-67 | different known codes get different labels |
| StockMovementTable.FilterByType | src/pages/Stock/StockMovementTable.tsx:112-119 | exactly the movements of the chosen code |
| StockMovementTable.QuantityColor | src/pages/Stock/StockMovementTable.tsx:127-133 | green iff entry or return, else red |
| StockMovementTable.NewStockColor | src/pages/Stock/StockMovementTable.tsx:149-157 | green iff the new stock is above the previous, else red |
| StockMovementTable.ColorsAgreeWithType | src/pages/Stock/StockMovementTable.tsx:127-157 | the two colours agree for a consistent entry, return or exit; an adjustment upward shows red then green |
| StockMovementTable.TextOrDash | src/pages/Stock/StockMovementTable.tsx:168-184 | the text, or "-" when absent or empty |
| LowStockAlert.Shortage | src/pages/Stock/LowStockAlert.tsx:79-90 | shortage + stock = minimum level, with no floor |
| LowStockAlert.ShortageOrder | src/pages/Stock/LowStockAlert.tsx:91-95 | negative iff the first shortage is larger, 0 iff equal |
| LowStockAlert.ShortageOrderAntisymmetric | src/pages/Stock/LowStockAlert.tsx:91-95 | the sorter is antisymmetric and puts the larger shortage first |
| LowStockAlert.ShortageMatchesDialog | src/pages/Stock/LowStockAlert.tsx:79-90 | agrees with the stock dialog's missing amount at or below the minimum; above it the list shows a negative figure and the dialog none |
| LowStockAlert.CategoryLabel | src/pages/Stock/LowStockAlert.tsx:42-50 | the category name, or "Belirtilmemiş" when absent or empty |
| LowStockAlert.SupplierLabel | src/pages/Stock/LowStockAlert.tsx:97-104 | company name, else name, else "-" (also when both are empty, or there is no supplier) |
| LowStockAlert.AlertState.constructor | src/pages/Stock/LowStockAlert.tsx:13-16 | dialog closed, nothing selected |
| LowStockAlert.AlertState.HandleStockAdd | src/pages/Stock/LowStockAlert.tsx:18-21 | the product is selected and the dialog open |
| LowStockAlert.AlertState.HandleModalClose | src/pages/Stock/LowStockAlert.tsx:23-26 | the dialog is closed and the selection cleared |
| LowStockAlert.AlertState.Render | src/pages/Stock/LowStockAlert.tsx:123-160 | the message iff the list is empty; otherwise the table, with the dialog for the selected product iff it is open |
| BulkStockMovement.ShortProduct | src/pages/Stock/BulkStockMovementModal.tsx:102-108 | flags only a stock-out of a found product holding less than the quantity; an unknown product is never flagged |
| BulkStockMovement.RowErrors | src/pages/Stock/BulkStockMovementModal.tsx:85-108 | no error iff id, type and quantity are good and the stock check passes; no message is empty |
| BulkStockMovement.ValidateRow | src/pages/Stock/BulkStockMovementModal.tsx:85-115 | the pushed errors are the specified ones; valid iff there are none |
| BulkStockMovement.Validated | src/pages/Stock/BulkStockMovementModal.tsx:85-115 | keeps the row; valid iff the message is empty iff every check passes |
| BulkStockMovement.ValidIffNoCheckFails | src/pages/Stock/BulkStockMovementModal.tsx:85-115 | valid iff every check passes iff the error message is empty |
| BulkStockMovement.ReturnAndTransferRejected | src/pages/Stock/BulkStockMovementModal.tsx:92-95 | type 4 or 5 is always rejected |
| BulkStockMovement.UnknownProductStockOutAccepted | src/pages/Stock/BulkStockMovementModal.tsx:102-108 | a stock-out of an unlisted product with good id and quantity is valid |
| BulkStockMovement.ShortStockRejected | src/pages/Stock/BulkStockMovementModal.tsx:102-108 | a stock-out beyond the first matching product's stock is rejected, its message last |
| BulkStockMovement.CountsOf | src/pages/Stock/BulkStockMovementModal.tsx:251-252 | valid is the number of valid rows, invalid the rest; invalid is 0 iff every row is valid |
| BulkStockMovement.ValidCountBelowLength | src/pages/Stock/BulkStockMovementModal.tsx:251-252 | fewer valid than rows iff some row is invalid |
| BulkStockMovement.NonEmpty | src/pages/Stock/BulkStockMovementModal.tsx:155-156 | an empty text becomes absent, any other is kept |
| BulkStockMovement.ToMovement | src/pages/Stock/BulkStockMovementModal.tsx:149-158 | the row's id, type and quantity, non-empty reference and notes, stamped with now |
| BulkStockMovement.Submit | src/pages/Stock/BulkStockMovementModal.tsx:141-161 | a warning iff no row is valid; otherwise exactly the valid rows, in order |
| BulkStockMovement.PostedMovementsAreChecked | src/pages/Stock/BulkStockMovementModal.tsx:85-161 | every posted movement has a positive id and quantity and type 1, 2 or 3 |
| BulkStockMovement.BulkImport.constructor | src/pages/Stock/BulkStockMovementModal.tsx:52-54 | first step, no file, no rows |
| BulkStockMovement.BulkImport.Upload | src/pages/Stock/BulkStockMovementModal.tsx:121-133 | each read row is checked and kept in order, the file listed and the preview shown; an unreadable file changes nothing |
| BulkStockMovement.BulkImport.Reset | src/pages/Stock/BulkStockMovementModal.tsx:134-138 | back to the first step with nothing loaded |
| BulkStockMovement.BulkImport.CurrentCounts | src/pages/Stock/BulkStockMovementModal.tsx:251-252 | the counts are `CountsOf` the current rows: valid is their number of valid rows, valid + invalid their number |
| StockReports.FilteredProducts | src/pages/Stock/StockReports.tsx:119-122 | no category keeps all; otherwise exactly the products whose embedded category has the id |
| StockReports.CategoryFilterIgnoresCategoryId | src/pages/Stock/StockReports.tsx:120-122 | a product with no embedded category is filtered out even when its `categoryId` matches |
| StockReports.ProductStockData | src/pages/Stock/StockReports.tsx:158-166 | the first ten in-stock products in list order (all of them when there are fewer), each bar the product's name and positive stock |
| StockReports.ProductStockDataIsPrefix | src/pages/Stock/StockReports.tsx:158-166 | more products can only extend the list |
| StockReports.PieColor | src/pages/Stock/StockReports.tsx:43 | a colour of the five-entry palette |
| StockReports.PieColorsCycle | src/pages/Stock/StockReports.tsx:388-393 | colours repeat every five slices and neighbours differ |
| StockReports.DateRankIsMonthThenDay | src/pages/Stock/StockReports.tsx:150-154 | the rank orders by month, then day, and ties exactly on equal dates |
| StockReports.ChartData | src/pages/Stock/StockReports.tsx:125-155 | the per-day entries, sorted by month then day, a permutation of the grouped entries |
| StockReports.GroupChartData | src/pages/Stock/StockReports.tsx:126-142 | the loop leaves the keys in first-appearance order, each holding that day's entry and exit totals |
| StockReports.ChartEntries | src/pages/Stock/StockReports.tsx:126-142 | no movements give no points; every point's date is the day of some movement |
| StockReports.PrepareChartData | src/pages/Stock/StockReports.tsx:125-155 | returns exactly the specified chart data |
| StockReports.SumOverEntries | src/pages/Stock/StockReports.tsx:144-149 | the entries' totals are the per-key totals summed |
| StockReports.ChartTotals | src/pages/Stock/StockReports.tsx:125-155 | chart entries (resp. exits) add up to all entry and return (resp. exit) quantities |
| StockReports.ChartEntriesSpec | src/pages/Stock/StockReports.tsx:126-149 | every entry is some movement's day with its totals; every movement's day has an entry; no duplicates |
| StockReports.ChartHasOnePointPerDate | src/pages/Stock/StockReports.tsx:125-155 | one point per day that has a movement, and no two points share a day |
| StockReports.FirstProduct | src/pages/Stock/StockReports.tsx:185-188 | the product stored for an id has that id |
| StockReports.MovedSnoc | src/pages/Stock/StockReports.tsx:175-190 | one more movement extends the moved list and keeps each id's first product |
| StockReports.FirstProductFound | src/pages/Stock/StockReports.tsx:175-190 | an id has a stored product iff some movement with a product carries it |
| StockReports.MovedEntries | src/pages/Stock/StockReports.tsx:175-192 | one entry per moved product id, in first-appearance order, with its first product and summed quantity |
| StockReports.MostMoved | src/pages/Stock/StockReports.tsx:192-194 | exactly min(10, number of moved products) entries, counts non-increasing, each one of the grouped entries, and all of them when there are at most 10 |
| StockReports.AddMovementKeepsMap | src/pages/Stock/StockReports.tsx:175-190 | one `forEach` step keeps the map equal to the specification of the longer prefix |
| StockReports.AddMovement | src/pages/Stock/StockReports.tsx:175-190 | a movement without a product changes nothing; otherwise its id is in the map and the order grows by at most that id |
| StockReports.Grouped | src/pages/Stock/StockReports.tsx:170-190 | the map after a prefix of the movements, as repeated `AddMovement` (a definition; `GroupedIsMovedMap` states what it holds) |
| StockReports.GroupedIsMovedMap | src/pages/Stock/StockReports.tsx:170-190 | the whole fold meets the specification |
| StockReports.MovedEntriesFromMap | src/pages/Stock/StockReports.tsx:192-194 | sorting and slicing the map's values gives `MostMoved` |
| StockReports.MapValues | src/pages/Stock/StockReports.tsx:192 | `Array.from(values())`: the values in key order |
| StockReports.GroupMovedProducts | src/pages/Stock/StockReports.tsx:170-190 | the loop's order and map are the specified grouping |
| StockReports.PrepareMostMovedProducts | src/pages/Stock/StockReports.tsx:169-195 | returns exactly `MostMoved` |
| StockReports.MostMovedSpec | src/pages/Stock/StockReports.tsx:169-195 | exactly min(10, number of moved products) rows, counts non-increasing, distinct products, drawn from the entries, none left out with a larger count, all kept when there are at most 10 |
| StockReports.CategoryLabel | src/pages/Stock/StockReports.tsx:202-214 | the embedded name when non-empty; else, for a non-zero id, the name of the first listed category with that id (even an empty one), or "Kategorisiz" when none has it; else "Kategorisiz" |
| StockReports.GroupCategoryValues | src/pages/Stock/StockReports.tsx:199-219 | the loop's order and map are the grouped stock value per label |
| StockReports.CategoryStockValue | src/pages/Stock/StockReports.tsx:198-225 | no products give no slices; every slice's name is the label of some product |
| StockReports.CategoryStep | src/pages/Stock/StockReports.tsx:216-218 | one step adds the product's value to its label's total |
| StockReports.PrepareCategoryStockValue | src/pages/Stock/StockReports.tsx:198-225 | returns exactly the specified rounded values per label |
| StockReports.CategoryStockValueSpec | src/pages/Stock/StockReports.tsx:198-225 | labels distinct; every product's label appears; each value is the rounded label total; unrounded totals add up to the whole stock value |
| JobModal.FinalAmount | src/pages/Jobs/JobModal.tsx:94-99 | non-negative, at least total − discount, and either 0 or exactly that difference |
| JobModal.FinalAmountAtMostTotal | src/pages/Jobs/JobModal.tsx:99 | with a non-negative discount and total, the final amount is at most the total |
| JobModal.DisplayedFinalAmount | src/pages/Jobs/JobModal.tsx:276-283 | displayed + discount = total |
| JobModal.DisplayedDiffersFromFinal | src/pages/Jobs/JobModal.tsx:276-283 | the box and the computed final amount differ exactly when the discount exceeds the total |
| JobModal.ValuesOf | src/pages/Jobs/JobModal.tsx:41-46 | the edit form holds the job's status, amounts and customer |
| JobModal.SubmitData | src/pages/Jobs/JobModal.tsx:75-91 | a record iff the form is valid: active, amounts with missing ones as 0, the chosen status and customer |
| JobModal.Valid | src/pages/Jobs/JobModal.tsx:122-246 | the form's required fields, the 200-character title and the non-negative total (a definition) |
| JobModal.NewJobSubmitsAsQuote | src/pages/Jobs/JobModal.tsx:47-53 | a valid new-job form (the defaults plus customer, title, address, date and total) is submitted as "quote sent" with a 0 discount |
| JobModal.JobForm.constructor | src/pages/Jobs/JobModal.tsx:35 | empty form, no final amount |
| JobModal.JobForm.OpenForNew | src/pages/Jobs/JobModal.tsx:47-53 | the new-job defaults, no final amount |
| JobModal.JobForm.OpenForEdit | src/pages/Jobs/JobModal.tsx:41-46 | the job's values and its final amount |
| JobModal.JobForm.HandleAmountChange | src/pages/Jobs/JobModal.tsx:94-103 | the final amount becomes `FinalAmount` of the current values |
| JobDetail.DetailFigures | src/pages/Jobs/JobDetail.tsx:103-110 | material cost is the used cost, payments all planned amounts, remaining + payments = final, net profit + cost = final |
| JobDetail.EmptyJobFigures | src/pages/Jobs/JobDetail.tsx:103-110 | a job with no lines has the final amount as both remaining and net profit |
| JobDetail.ExpenseLowersNetProfit | src/pages/Jobs/JobDetail.tsx:108-110 | an expense lowers the net profit by its amount |
| JobDetail.DetailRemainingAtMostTabRemaining | src/pages/Jobs/JobDetail.tsx:107-109 | with non-negative amounts the detail page's remaining is at most the payments tab's |
| JobDetail.RemainingFiguresDiffer | src/pages/Jobs/JobDetail.tsx:107-109 | an unpaid instalment makes the two remaining figures differ |
| JobDetail.RemainingMayBeNegative | src/pages/Jobs/JobDetail.tsx:109 | overpayment shows a negative remaining payment |
| JobDetail.RemainingFiguresAgreeWhenAllPaid | src/pages/Jobs/JobDetail.tsx:107-109 | when every payment is paid and the final amount covers them, the two figures agree |
| JobDetail.HandleStatusChange | src/pages/Jobs/JobDetail.tsx:93-99 | a warning iff no status is chosen; otherwise the chosen status with the notes |
| JobDetail.StatusOptions | src/pages/Jobs/JobDetail.tsx:369-373 | the ten statuses in order with their labels |
| JobDetail.AnyStatusCanBeSent | src/pages/Jobs/JobDetail.tsx:369-373 | every status is offered and sent from any job |
| JobDetail.OptionsAreStatuses | src/pages/Jobs/JobDetail.tsx:369-373 | every option is a status 1..10 |
| JobMaterialsTab.EffectivePrice | src/pages/Jobs/JobMaterialsTab.tsx:112-115 | the product's purchase price when present and non-zero, else the line's unit price |
| JobMaterialsTab.EffectivePriceZero | src/pages/Jobs/JobMaterialsTab.tsx:113 | a zero effective price means a zero unit price |
| JobMaterialsTab.CostsAppend | src/pages/Jobs/JobMaterialsTab.tsx:106-115 | a line adds its used and planned quantity times its price |
| JobMaterialsTab.PlannedCost | src/pages/Jobs/JobMaterialsTab.tsx:106-110 | 0 with no lines; not negative when quantities and effective prices are not |
| JobMaterialsTab.UsedCost | src/pages/Jobs/JobMaterialsTab.tsx:112-116 | 0 with no lines; not negative when quantities and effective prices are not |
| JobMaterialsTab.IsInstallationCompleted | src/pages/Jobs/JobMaterialsTab.tsx:25 | the job is loaded and its status is exactly 8 (a definition, with no contract of its own) |
| JobMaterialsTab.UsedCostAtMostPlanned | src/pages/Jobs/JobMaterialsTab.tsx:106-115 | with used ≤ planned and non-negative prices, used cost ≤ planned cost |
| JobMaterialsTab.NothingUsedCostsNothing | src/pages/Jobs/JobMaterialsTab.tsx:112-115 | nothing used costs 0 |
| JobMaterialsTab.UsedQuantityInputFor | src/pages/Jobs/JobMaterialsTab.tsx:158-170 | the used quantity input is enabled and required iff the job is at "installation completed" |
| JobMaterialsTab.LaterStatusesLockUsedQuantity | src/pages/Jobs/JobMaterialsTab.tsx:25 | at "completed" or "cancelled" the input is locked |
| JobMaterialsTab.AddMaterial | src/pages/Jobs/JobMaterialsTab.tsx:27-42 | "Ürün bulunamadı" iff no product has the id; otherwise the line at the product's purchase price, with used 0 unless installation is completed |
| JobMaterialsTab.OfferedProductsCanBeAdded | src/pages/Jobs/JobMaterialsTab.tsx:29-32 | a listed product can always be added |
| JobMaterialsTab.AddedMaterialCostedAtPostedPrice | src/pages/Jobs/JobMaterialsTab.tsx:34-41 | a saved line whose embedded product is the added one (ids unique) is costed at the price it was posted with |
| JobPaymentsTab.Remaining | src/pages/Jobs/JobPaymentsTab.tsx:93 | non-negative, at least final − paid, and either 0 or exactly that |
| JobPaymentsTab.TotalPaid | src/pages/Jobs/JobPaymentsTab.tsx:91 | the planned total of the payments marked paid; not negative when no amount is |
| JobPaymentsTab.TotalPlanned | src/pages/Jobs/JobPaymentsTab.tsx:92 | the sum of all payment amounts; not negative when no amount is |
| JobPaymentsTab.PaidAtMostPlanned | src/pages/Jobs/JobPaymentsTab.tsx:91-92 | with non-negative amounts, paid ≤ planned |
| JobPaymentsTab.AddPaymentTotals | src/pages/Jobs/JobPaymentsTab.tsx:91-92 | a payment adds to planned, and to paid only when paid |
| JobPaymentsTab.ExampleTotals | src/pages/Jobs/JobPaymentsTab.tsx:91-93 | on a 10000 job with 4000 paid and 2000 unpaid: paid 4000, planned 6000, remaining 6000 |
| JobPaymentsTab.PaymentTypeLabel | src/pages/Jobs/JobPaymentsTab.tsx:56 | the label of 1..5, "-" otherwise |
| JobPaymentsTab.AddPayment | src/pages/Jobs/JobPaymentsTab.tsx:20-30 | the form values as posted; paid iff the switch is on |
| JobPaymentsTab.Stored | src/pages/Jobs/JobPaymentsTab.tsx:20-30 | the stored payment keeps the posted amount and paid flag |
| JobPaymentsTab.UnchosenStatusIsNotPaid | src/pages/Jobs/JobPaymentsTab.tsx:27 | an untouched switch adds to planned but not to paid |
| JobExpensesTab.TotalExpensesOrderFree | src/pages/Jobs/JobExpensesTab.tsx:81 | the total does not depend on order |
| JobExpensesTab.AddExpenseTotal | src/pages/Jobs/JobExpensesTab.tsx:81 | an expense adds its amount |
| JobExpensesTab.TotalExpenses | src/pages/Jobs/JobExpensesTab.tsx:81 | 0 with no expenses; not negative when no amount is |
| JobExpensesTab.TotalExpensesSplit | src/pages/Jobs/JobExpensesTab.tsx:81 | the total distributes over concatenation |
| JobExpensesTab.ExpenseTypeLabel | src/pages/Jobs/JobExpensesTab.tsx:47 | the label of 1..6, "-" otherwise |
| JobExpensesTab.AddExpense | src/pages/Jobs/JobExpensesTab.tsx:19-27 | the form values as posted |
| JobService.Cleaned | src/services/jobService.ts:18-26 | keeps exactly the keys whose value is not undefined, null or "", with their values |
| JobService.CleanParams | src/services/jobService.ts:18-26 | the loop that inserts the non-blank keys into a fresh map leaves exactly `Cleaned` |
| JobService.CleanedIdempotent | src/services/jobService.ts:18-26 | cleaning twice is cleaning once |
| JobService.CleanedKeepsZeroAndFalse | src/services/jobService.ts:21 | 0 and false are kept |
| JobService.CleanedKeysSubset | src/services/jobService.ts:20-24 | no key is added |
| JobService.GetAllParams | src/services/jobService.ts:29-33 | no filters send nothing; otherwise the cleaned filters |
| JobsPage.PartitionIsExact | src/pages/Jobs/Jobs.tsx:131-137 | the three tabs' sizes add up to the list |
| JobsPage.PartitionMembership | src/pages/Jobs/Jobs.tsx:131-137 | active = neither completed nor cancelled, completed = 9, cancelled = 10; each of the three tabs distributes over concatenation, so keeps the loaded order |
| JobsPage.Partition | src/pages/Jobs/Jobs.tsx:131-137 | the active tab holds loaded jobs with status neither 9 nor 10, the completed tab status 9, the cancelled tab status 10 |
| JobsPage.JobsFilterState.constructor | src/pages/Jobs/Jobs.tsx:42-43 | no filters, empty search |
| JobsPage.JobsFilterState.HandleFilterChange | src/pages/Jobs/Jobs.tsx:99-101 | sets one key, leaves the others |
| JobsPage.JobsFilterState.HandleDateRangeChange | src/pages/Jobs/Jobs.tsx:103-118 | a full range sets both dates; otherwise both are removed |
| JobsPage.JobsFilterState.HandleSearch | src/pages/Jobs/Jobs.tsx:120-123 | stores the term and sets the search filter |
| JobsPage.JobsFilterState.HandleFilterReset | src/pages/Jobs/Jobs.tsx:125-128 | no filters, empty search |
| JobsPage.JobsFilterState.RequestParams | src/pages/Jobs/Jobs.tsx:46-49 | the request sends exactly the non-blank filters, with their values (`Cleaned` of the filters) |
| JobsPage.ClearedRangeSendsNoDates | src/pages/Jobs/Jobs.tsx:112-117 | a cleared range sends no dates |
| JobsPage.EmptySearchSendsNothing | src/pages/Jobs/Jobs.tsx:120-123 | an empty search term is not sent |
| JobsPage.ResetSendsNoParams | src/pages/Jobs/Jobs.tsx:125-128 | after a reset nothing is sent |
| JobsTable.AmountCellOf | src/pages/Jobs/JobsTable.tsx:104-136 | a struck total and the final amount iff there is a positive discount; otherwise the total |
| JobsTable.AmountOrder | src/pages/Jobs/JobsTable.tsx:137 | negative iff the first final amount is smaller, 0 iff equal |
| JobsTable.AmountOrderAntisymmetric | src/pages/Jobs/JobsTable.tsx:137 | the sorter is antisymmetric |
| JobsTable.ProgressTotal | src/pages/Jobs/JobsTable.tsx:145-146 | the planned total of the job's payments, 0 without any |
| JobsTable.PaymentPercentage | src/pages/Jobs/JobsTable.tsx:147-150 | 0 for a non-positive final amount, else the rounded percentage paid |
| JobsTable.ProgressStatus | src/pages/Jobs/JobsTable.tsx:161 | "success" iff the percentage reaches 100, else "active" |
| JobsTable.SuccessThreshold | src/pages/Jobs/JobsTable.tsx:147-161 | with a positive final amount, "success" iff payments reach 99.5% of it, because of rounding |
| JobsTable.PercentageBounds | src/pages/Jobs/JobsTable.tsx:147-150 | between 0 and 100 when payments are non-negative and at most the final amount |
| ExcelService.MovementTypeName | src/services/excelService.ts:154-163 | each of the five codes has its name; exactly the others are "Bilinmiyor" |
| ExcelService.TypeNamesAgreeWithTable | src/services/excelService.ts:154-163 | the export and the movement table fall back for the same codes and name the known codes alike |
| ExcelService.MovementRowOf | src/services/excelService.ts:32-43 | the formatted date, the type name, the figures, empty cells for a missing product, reference or note, and a unit that is never empty |
| ExcelService.MovementRows | src/services/excelService.ts:32-43 | one row per movement, in order |
| ExcelService.MovementRowsAppend | src/services/excelService.ts:32-43 | exporting two lists gives the rows of each, in order |
| ExcelService.ProductRowOf | src/services/excelService.ts:72-85 | the product's figures, empty cells for missing barcode, category or supplier, "Adet" for an empty unit, "Aktif" iff active |
| ExcelService.ProductRows | src/services/excelService.ts:72-85 | one row per product, in order |
| ExcelService.ActiveRowsCount | src/services/excelService.ts:84 | the "Aktif" rows are as many as the active products |
| ExcelService.TemplateRowOf | src/services/excelService.ts:107-117 | id, code, name and stock filled; the user's cells empty |
| ExcelService.TemplateRows | src/services/excelService.ts:107-117 | one row per product, in order |
| ExcelService.UnfilledTemplateRowRejected | src/services/excelService.ts:113-116 | a template row sent back unfilled fails the type and quantity checks |
| ExcelService.FilledTemplateRowAccepted | src/services/excelService.ts:107-117 | a row for a listed product with positive id, filled with type 1..3 and a positive quantity (a stock-out within stock), passes every check |

## Left out

- HTTP calls, react-query caching and invalidation, toasts and loading spinners are left out. Data arrives as values, and a list that has not loaded is `None`.
- Date handling is left out: dayjs, `toISOString`, the date sorters of the movement and job tables, and the date pickers. A movement's `DD/MM` and the export's date text are parameters.
- Number formatting is left out: `toLocaleString`, `toFixed` and the "₺" money text. Cells carry the numbers.
- `localeCompare` name sorters are left out, because collation is not modelled.
- The job table's status filter and date columns, and colour-only displays that carry no rule, are left out.
- Reading and writing workbooks is left out: `importFromExcel`, `importBulkStockMovements`, the XLSX calls, the file names and the `!cols` column widths. The product export lists 9 widths for 12 columns. Imported rows arrive as values, and an empty template cell read back is `None`.
- The stock report's `categories` list is left out. It de-duplicates category objects by identity through a `Set`, which a value model cannot express.
- The supplier pages and the stock page shell are left out. The modelled components are what those pages render.
- NaN is left out, since no numeric field is NaN. So `x || 0` on a required number is the identity.
- Text.Round: halves are rounded up as `Math.round` does. JavaScript floating-point error is not modelled.
- The product dialog's profit-amount colour (`profitAmount >= 0 ? band colour : red`, src/pages/Products/ProductModal.tsx:352-358) has no member of its own. While the pricing state is valid, a negative profit has a negative margin (`ProductModal.MarginSignFollowsProfit`), so it falls in the poor band, whose colour is already red.
- JobModal.FinalAmount: the `Math.max(0, …)` is modelled on reals. Float subtraction error is not modelled.
