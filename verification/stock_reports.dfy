/** The stock reports page: the category filter, the daily in/out chart, the
    stock-per-product chart, the most moved products and the stock value per
    category. The three aggregations fill a JS `Map` in a `forEach` loop and
    are methods here, each proved equal to a function built from the
    group-by of `Folds`. */
module StockReports {
  import opened Wrappers
  import opened Types
  import opened Folds
  import opened Text

  // ---------------------------------------------------------------------
  // The category filter
  // ---------------------------------------------------------------------

  predicate InCategory(selected: int, p: Product) {
    p.category.Some? && p.category.value.id == selected
  }

  /** `filteredProducts`: with a chosen category (0 counts as none) only the
      products whose embedded category has that id, in list order. */
  function FilteredProducts(products: seq<Product>, selectedCategory: Option<int>): (r: seq<Product>)
    ensures selectedCategory.None? || selectedCategory.value == 0 ==> r == products
    ensures selectedCategory.Some? && selectedCategory.value != 0 ==>
              forall p :: p in r <==> p in products && p.category.Some? && p.category.value.id == selectedCategory.value
  {
    if selectedCategory.Some? && selectedCategory.value != 0 then
      FilterMembership(products, (p: Product) => InCategory(selectedCategory.value, p));
      Filter(products, (p: Product) => InCategory(selectedCategory.value, p))
    else products
  }

  /** The filter reads only the embedded category: a product that carries
      the chosen id in `categoryId` but no embedded category is dropped. */
  lemma CategoryFilterIgnoresCategoryId(products: seq<Product>, selected: int, p: Product)
    requires selected != 0 && p in products && p.categoryId == selected && p.category.None?
    ensures p !in FilteredProducts(products, Some(selected))
  {
  }

  // ---------------------------------------------------------------------
  // Stock per product
  // ---------------------------------------------------------------------

  /** A bar of the stock chart. */
  datatype ProductStock = ProductStock(name: string, value: real)

  predicate InStock(p: Product) {
    p.stockQuantity > 0.0
  }

  function ToProductStock(p: Product): ProductStock {
    ProductStock(p.name, p.stockQuantity)
  }

  /** `prepareProductStockData`: the first ten products with stock above 0,
      in list order, with their name and stock. */
  function ProductStockData(filtered: seq<Product>): (r: seq<ProductStock>)
    ensures |r| <= 10
    ensures |r| == (if Count(filtered, InStock) < 10 then Count(filtered, InStock) else 10)
    ensures forall i :: 0 <= i < |r| ==> r[i].value > 0.0
    ensures forall i :: 0 <= i < |r| ==> exists p :: p in filtered && r[i] == ProductStock(p.name, p.stockQuantity)
    ensures forall i :: 0 <= i < |r| ==> r[i] == ToProductStock(Filter(filtered, InStock)[i])
  {
    var kept := Take(Filter(filtered, InStock), 10);
    assert forall i :: 0 <= i < |kept| ==> kept[i] in Filter(filtered, InStock);
    Map(kept, ToProductStock)
  }

  /** The chart does not sort: more products after the list only add bars
      after the ones it already has. */
  lemma ProductStockDataIsPrefix(ps: seq<Product>, qs: seq<Product>)
    ensures ProductStockData(ps) <= ProductStockData(ps + qs)
  {
    FilterAppend(ps, qs, InStock);
    var a := Take(Filter(ps, InStock), 10);
    var b := Take(Filter(ps + qs, InStock), 10);
    assert forall i :: 0 <= i < |a| ==> a[i] == b[i];
  }

  // ---------------------------------------------------------------------
  // The pie chart's colours
  // ---------------------------------------------------------------------

  const COLORS: seq<string> := ["#0088FE", "#00C49F", "#FFBB28", "#FF8042", "#8884D8"]

  /** The slice colour: the five colours in turn. */
  function PieColor(index: nat): (r: string)
    ensures r in COLORS
  {
    COLORS[index % |COLORS|]
  }

  /** The colours repeat every five slices and neighbours never share one. */
  lemma PieColorsCycle(index: nat)
    ensures PieColor(index + 5) == PieColor(index)
    ensures PieColor(index + 1) != PieColor(index)
  {
    assert (index + 1) % 5 == if index % 5 == 4 then 0 else index % 5 + 1;
  }

  // ---------------------------------------------------------------------
  // Daily stock in and out
  // ---------------------------------------------------------------------

  /** The `DD/MM` key of a movement's date. The year is not part of it. */
  datatype DayMonth = DayMonth(day: int, month: int)
  type CalendarDay = d: DayMonth | 1 <= d.day <= 31 && 1 <= d.month <= 12 witness DayMonth(1, 1)

  /** A point of the chart: the date key with the quantity in and out. */
  datatype ChartEntry = ChartEntry(date: CalendarDay, giris: real, cikis: real)

  /** The running pair the loop keeps per date. */
  datatype InOut = InOut(giris: real, cikis: real)

  /** The quantity a movement adds to "giris": an entry or a return. */
  function Giris(m: StockMovement): real {
    if m.movementType == STOCK_IN || m.movementType == RETURN then m.quantity else 0.0
  }

  /** The quantity a movement adds to "cikis": an exit. Adjustments and
      transfers add to neither. */
  function Cikis(m: StockMovement): real {
    if m.movementType == STOCK_OUT then m.quantity else 0.0
  }

  /** The date key of a movement; `dayMonthOf` stands for the date library's
      parsing and `DD/MM` formatting. */
  function DateKey(dayMonthOf: string -> CalendarDay): StockMovement -> CalendarDay {
    (m: StockMovement) => dayMonthOf(m.movementDate)
  }

  /** The point for one date key: the in and out totals of its movements. */
  function ChartEntryFor(movements: seq<StockMovement>, dayMonthOf: string -> CalendarDay): CalendarDay -> ChartEntry {
    (k: CalendarDay) => ChartEntry(k, Total(movements, DateKey(dayMonthOf), k, Giris), Total(movements, DateKey(dayMonthOf), k, Cikis))
  }

  /** The map's entries in insertion order: one point per date key, in the
      order the keys first occur. */
  function ChartEntries(movements: seq<StockMovement>, dayMonthOf: string -> CalendarDay): (r: seq<ChartEntry>)
    ensures movements == [] ==> r == []
    ensures forall k :: 0 <= k < |r| ==> exists i :: 0 <= i < |movements| && dayMonthOf(movements[i].movementDate) == r[k].date
  {
    var ks := Keys(movements, DateKey(dayMonthOf));
    KeysSpec(movements, DateKey(dayMonthOf));
    assert forall k :: 0 <= k < |ks| ==> ks[k] in ks;
    Map(ks, ChartEntryFor(movements, dayMonthOf))
  }

  /** The sort key: month first, then day. */
  function DateRank(e: ChartEntry): real {
    (e.date.month * 32 + e.date.day) as real
  }

  /** The rank orders points as the comparator does: by month, and by day
      within a month. */
  lemma DateRankIsMonthThenDay(a: ChartEntry, b: ChartEntry)
    ensures DateRank(a) < DateRank(b) <==> a.date.month < b.date.month || (a.date.month == b.date.month && a.date.day < b.date.day)
    ensures DateRank(a) == DateRank(b) <==> a.date == b.date
  {
  }

  /** `prepareChartData`: the points sorted by month and day. */
  function ChartData(movements: seq<StockMovement>, dayMonthOf: string -> CalendarDay): (r: seq<ChartEntry>)
    ensures SortedBy(r, DateRank)
    ensures multiset(r) == multiset(ChartEntries(movements, dayMonthOf))
  {
    SortBy(ChartEntries(movements, dayMonthOf), DateRank)
  }

  /** The `forEach` that fills the `Map`: `order` holds its keys in
      insertion order and `data` the pair under each key. Setting an
      existing key keeps its place. */
  method GroupChartData(movements: seq<StockMovement>, dayMonthOf: string -> CalendarDay)
    returns (order: seq<CalendarDay>, data: map<CalendarDay, InOut>)
    ensures order == Keys(movements, DateKey(dayMonthOf))
    ensures forall t :: 0 <= t < |order| ==> order[t] in data
    ensures forall k :: k in data ==>
              data[k] == InOut(Total(movements, DateKey(dayMonthOf), k, Giris), Total(movements, DateKey(dayMonthOf), k, Cikis))
  {
    var key := DateKey(dayMonthOf);
    order := [];
    data := map[];
    var i := 0;
    while i < |movements|
      invariant 0 <= i <= |movements|
      invariant order == Keys(movements[..i], key)
      invariant forall k :: k in data <==> k in order
      invariant forall k :: k in data ==> data[k] == InOut(Total(movements[..i], key, k, Giris), Total(movements[..i], key, k, Cikis))
    {
      var movement := movements[i];
      var date := dayMonthOf(movement.movementDate);
      var existing := if date in data then data[date] else InOut(0.0, 0.0);
      if movement.movementType == STOCK_IN || movement.movementType == RETURN {
        existing := existing.(giris := existing.giris + movement.quantity);
      } else if movement.movementType == STOCK_OUT {
        existing := existing.(cikis := existing.cikis + movement.quantity);
      }
      assert movements[..i + 1][..i] == movements[..i];
      assert key(movement) == date;
      if date !in data {
        TotalAbsent(movements[..i], key, date, Giris);
        TotalAbsent(movements[..i], key, date, Cikis);
        order := order + [date];
      }
      data := data[date := existing];
      i := i + 1;
    }
    assert movements[..i] == movements;
    forall t | 0 <= t < |order| ensures order[t] in data {
      assert order[t] in order;
    }
  }

  /** `prepareChartData`: the map's points, in key insertion order, then
      sorted by date. */
  method PrepareChartData(movements: seq<StockMovement>, dayMonthOf: string -> CalendarDay) returns (r: seq<ChartEntry>)
    ensures r == ChartData(movements, dayMonthOf)
  {
    var order, data := GroupChartData(movements, dayMonthOf);
    var entries: seq<ChartEntry> := [];
    var j := 0;
    while j < |order|
      invariant 0 <= j <= |order|
      invariant |entries| == j
      invariant forall t :: 0 <= t < j ==> entries[t] == ChartEntry(order[t], data[order[t]].giris, data[order[t]].cikis)
    {
      entries := entries + [ChartEntry(order[j], data[order[j]].giris, data[order[j]].cikis)];
      j := j + 1;
    }
    assert entries == ChartEntries(movements, dayMonthOf);
    r := SortBy(entries, DateRank);
  }

  function EntryGiris(e: ChartEntry): real { e.giris }
  function EntryCikis(e: ChartEntry): real { e.cikis }

  /** Summing the points of some keys sums the totals of those keys. */
  lemma {:induction false} SumOverEntries(ks: seq<CalendarDay>, movements: seq<StockMovement>, dayMonthOf: string -> CalendarDay)
    ensures Sum(Map(ks, ChartEntryFor(movements, dayMonthOf)), EntryGiris) == SumTotals(ks, movements, DateKey(dayMonthOf), Giris)
    ensures Sum(Map(ks, ChartEntryFor(movements, dayMonthOf)), EntryCikis) == SumTotals(ks, movements, DateKey(dayMonthOf), Cikis)
    decreases |ks|
  {
    if ks != [] {
      var f := ChartEntryFor(movements, dayMonthOf);
      SumOverEntries(ks[..|ks| - 1], movements, dayMonthOf);
      assert Map(ks, f)[..|ks| - 1] == Map(ks[..|ks| - 1], f);
    }
  }

  /** Across the chart the "giris" points add up to the quantity of every
      entry and return, and the "cikis" points to the quantity of every
      exit: grouping by date loses and doubles nothing. */
  lemma ChartTotals(movements: seq<StockMovement>, dayMonthOf: string -> CalendarDay)
    ensures Sum(ChartData(movements, dayMonthOf), EntryGiris) == Sum(movements, Giris)
    ensures Sum(ChartData(movements, dayMonthOf), EntryCikis) == Sum(movements, Cikis)
  {
    var entries := ChartEntries(movements, dayMonthOf);
    SumPermutation(ChartData(movements, dayMonthOf), entries, EntryGiris);
    SumPermutation(ChartData(movements, dayMonthOf), entries, EntryCikis);
    SumOverEntries(Keys(movements, DateKey(dayMonthOf)), movements, dayMonthOf);
    SumOfTotals(movements, DateKey(dayMonthOf), Giris);
    SumOfTotals(movements, DateKey(dayMonthOf), Cikis);
  }

  /** Each map entry carries the totals of its date, a date that occurs;
      each date that occurs has its entry; the entries differ. */
  lemma ChartEntriesSpec(movements: seq<StockMovement>, dayMonthOf: string -> CalendarDay)
    ensures forall e :: e in ChartEntries(movements, dayMonthOf) ==>
              e == ChartEntryFor(movements, dayMonthOf)(e.date)
              && exists i :: 0 <= i < |movements| && dayMonthOf(movements[i].movementDate) == e.date
    ensures forall i :: 0 <= i < |movements| ==>
              ChartEntryFor(movements, dayMonthOf)(dayMonthOf(movements[i].movementDate)) in ChartEntries(movements, dayMonthOf)
    ensures Distinct(ChartEntries(movements, dayMonthOf))
  {
    var key := DateKey(dayMonthOf);
    var ks := Keys(movements, key);
    var entries := ChartEntries(movements, dayMonthOf);
    KeysSpec(movements, key);
    forall e | e in entries
      ensures e == ChartEntryFor(movements, dayMonthOf)(e.date)
      ensures exists i :: 0 <= i < |movements| && dayMonthOf(movements[i].movementDate) == e.date
    {
      var t :| 0 <= t < |entries| && entries[t] == e;
      assert ks[t] in ks;
      var i :| 0 <= i < |movements| && key(movements[i]) == ks[t];
      assert dayMonthOf(movements[i].movementDate) == e.date;
    }
    forall i | 0 <= i < |movements|
      ensures ChartEntryFor(movements, dayMonthOf)(dayMonthOf(movements[i].movementDate)) in entries
    {
      var k := dayMonthOf(movements[i].movementDate);
      assert key(movements[i]) == k;
      assert k in ks;
      var t :| 0 <= t < |ks| && ks[t] == k;
      assert entries[t] == ChartEntryFor(movements, dayMonthOf)(k);
    }
    forall a, b | 0 <= a < b < |entries| ensures entries[a] != entries[b] {
      assert entries[a].date == ks[a];
    }
  }

  /** The chart has exactly one point per date key that occurs, carrying the
      totals of that key, and no two points share a date. */
  lemma ChartHasOnePointPerDate(movements: seq<StockMovement>, dayMonthOf: string -> CalendarDay)
    ensures forall e :: e in ChartData(movements, dayMonthOf) ==>
              e == ChartEntryFor(movements, dayMonthOf)(e.date)
              && exists i :: 0 <= i < |movements| && dayMonthOf(movements[i].movementDate) == e.date
    ensures forall i :: 0 <= i < |movements| ==>
              ChartEntryFor(movements, dayMonthOf)(dayMonthOf(movements[i].movementDate)) in ChartData(movements, dayMonthOf)
    ensures forall a, b :: 0 <= a < b < |ChartData(movements, dayMonthOf)| ==>
              ChartData(movements, dayMonthOf)[a].date != ChartData(movements, dayMonthOf)[b].date
  {
    var entries := ChartEntries(movements, dayMonthOf);
    var r := ChartData(movements, dayMonthOf);
    ChartEntriesSpec(movements, dayMonthOf);
    forall e ensures e in r <==> e in entries {
      assert e in r <==> e in multiset(r);
    }
    DistinctPermutation(entries, r);
    forall a, b | 0 <= a < b < |r| ensures r[a].date != r[b].date {
      assert r[a] in r && r[b] in r;
    }
  }

  // ---------------------------------------------------------------------
  // Most moved products
  // ---------------------------------------------------------------------

  predicate HasProduct(m: StockMovement) {
    m.product.Some?
  }

  /** The map key of a movement that has a product: the product's id. */
  function MovedId(m: StockMovement): int {
    if m.product.Some? then m.product.value.id else 0
  }

  function Quantity(m: StockMovement): real {
    m.quantity
  }

  /** The product the map stores under `id`: the one of the first movement
      whose product has that id. */
  function FirstProduct(s: seq<StockMovement>, id: int): (r: Option<Product>)
    ensures r.Some? ==> r.value.id == id
    decreases |s|
  {
    if s == [] then None
    else
      var f := FirstProduct(s[..|s| - 1], id);
      if f.Some? then f
      else if s[|s| - 1].product.Some? && s[|s| - 1].product.value.id == id then s[|s| - 1].product
      else None
  }

  /** One more movement: it joins the movements with a product if it has
      one, and its product is stored under its id if none was before. */
  lemma MovedSnoc(s: seq<StockMovement>, x: StockMovement)
    ensures Filter(s + [x], HasProduct) == Filter(s, HasProduct) + (if HasProduct(x) then [x] else [])
    ensures forall k :: FirstProduct(s + [x], k)
              == if FirstProduct(s, k).Some? then FirstProduct(s, k)
                 else if x.product.Some? && x.product.value.id == k then x.product
                 else None
  {
    assert (s + [x])[..|s|] == s;
  }

  /** A product is stored under exactly the ids that become keys. */
  lemma {:induction false} FirstProductFound(s: seq<StockMovement>)
    ensures forall id :: FirstProduct(s, id).Some? <==> id in Keys(Filter(s, HasProduct), MovedId)
    decreases |s|
  {
    if s != [] {
      var s' := s[..|s| - 1];
      var x := s[|s| - 1];
      assert s == s' + [x];
      FirstProductFound(s');
      MovedSnoc(s', x);
      var f' := Filter(s', HasProduct);
      if HasProduct(x) {
        GroupSnoc(f', x, MovedId, Quantity);
      } else {
        assert Filter(s, HasProduct) == f' + [] == f';
      }
      forall id ensures FirstProduct(s, id).Some? <==> id in Keys(Filter(s, HasProduct), MovedId) {
        assert FirstProduct(s', id).Some? <==> id in Keys(f', MovedId);
      }
    }
  }

  /** A row of the table: the product and the quantity it moved. */
  datatype MovedProduct = MovedProduct(product: Product, count: real)

  /** The map's values in insertion order: per product id, in order of first
      appearance, the first product seen and the quantity of all its
      movements. Movements without a product are skipped. */
  function MovedEntries(movements: seq<StockMovement>): (r: seq<MovedProduct>)
    ensures |r| == |Keys(Filter(movements, HasProduct), MovedId)|
    ensures forall i :: 0 <= i < |r| ==>
              r[i].product.id == Keys(Filter(movements, HasProduct), MovedId)[i]
              && Some(r[i].product) == FirstProduct(movements, r[i].product.id)
              && r[i].count == Total(Filter(movements, HasProduct), MovedId, r[i].product.id, Quantity)
  {
    var moved := Filter(movements, HasProduct);
    var ks := Keys(moved, MovedId);
    FirstProductFound(movements);
    seq(|ks|, i requires 0 <= i < |ks| => MovedProduct(FirstProduct(movements, ks[i]).value, Total(moved, MovedId, ks[i], Quantity)))
  }

  /** The sort key for `b.count - a.count`: descending by count. */
  function NegCount(e: MovedProduct): real {
    -e.count
  }

  /** `prepareMostMovedProducts`: the entries sorted by count, largest
      first (ties keep their order), at most ten. */
  function MostMoved(movements: seq<StockMovement>): (r: seq<MovedProduct>)
    ensures |r| == if |MovedEntries(movements)| < 10 then |MovedEntries(movements)| else 10
    ensures forall i, j :: 0 <= i < j < |r| ==> r[i].count >= r[j].count
    ensures forall e :: e in r ==> e in MovedEntries(movements)
    ensures |MovedEntries(movements)| <= 10 ==> multiset(r) == multiset(MovedEntries(movements))
  {
    TakeSortedSpec(MovedEntries(movements), NegCount, 10);
    Take(SortBy(MovedEntries(movements), NegCount), 10)
  }

  /** What the loop's map holds after the movements `s`: the ids in order
      of first appearance, and under each the first product seen and its
      total quantity. */
  ghost predicate MovedMap(s: seq<StockMovement>, order: seq<int>, data: map<int, MovedProduct>) {
    && order == Keys(Filter(s, HasProduct), MovedId)
    && (forall k :: k in data <==> k in order)
    && (forall t :: 0 <= t < |order| ==> order[t] in data)
    && (forall k :: k in data ==>
          FirstProduct(s, k).Some?
          && data[k] == MovedProduct(FirstProduct(s, k).value, Total(Filter(s, HasProduct), MovedId, k, Quantity)))
  }

  /** The map, as its keys in insertion order and the value under each. */
  datatype MovedGroups = MovedGroups(order: seq<int>, data: map<int, MovedProduct>)

  /** One pass of the loop body: a movement without a product is skipped;
      a known id gets the quantity added; a new id is stored with the
      movement's product and quantity. */
  function AddMovement(g: MovedGroups, x: StockMovement): (r: MovedGroups)
    ensures x.product.None? ==> r == g
    ensures x.product.Some? ==> x.product.value.id in r.data && r.order <= g.order + [x.product.value.id]
  {
    if x.product.None? then g
    else
      var id := x.product.value.id;
      if id in g.data then g.(data := g.data[id := g.data[id].(count := g.data[id].count + x.quantity)])
      else MovedGroups(g.order + [id], g.data[id := MovedProduct(x.product.value, x.quantity)])
  }

  /** The map after the loop has seen the movements `s`. */
  function Grouped(s: seq<StockMovement>): MovedGroups
    decreases |s|
  {
    if s == [] then MovedGroups([], map[]) else AddMovement(Grouped(s[..|s| - 1]), s[|s| - 1])
  }

  /** A movement without a product leaves the map as it was. */
  lemma SkipKeepsMap(s: seq<StockMovement>, x: StockMovement, g: MovedGroups)
    requires MovedMap(s, g.order, g.data) && x.product.None?
    ensures MovedMap(s + [x], g.order, g.data)
  {
    MovedSnoc(s, x);
    assert Filter(s + [x], HasProduct) == Filter(s, HasProduct);
  }

  /** A movement of a product already in the map adds its quantity there. */
  lemma AddKnownKeepsMap(s: seq<StockMovement>, x: StockMovement, g: MovedGroups)
    requires MovedMap(s, g.order, g.data) && x.product.Some? && x.product.value.id in g.data
    ensures MovedMap(s + [x], AddMovement(g, x).order, AddMovement(g, x).data)
  {
    var id := x.product.value.id;
    var f := Filter(s, HasProduct);
    assert (s + [x])[..|s|] == s;
    assert Filter(s + [x], HasProduct) == f + [x];
    GroupSnoc(f, x, MovedId, Quantity);
    assert id in g.order;
    var g' := AddMovement(g, x);
    forall k | k in g'.data
      ensures FirstProduct(s + [x], k).Some?
      ensures g'.data[k] == MovedProduct(FirstProduct(s + [x], k).value, Total(f + [x], MovedId, k, Quantity))
    {
      assert k in g.data;
      FirstProductKept(s, x, k);
    }
  }

  /** Once a product is stored under an id, later movements do not replace it. */
  lemma FirstProductKept(s: seq<StockMovement>, x: StockMovement, k: int)
    requires FirstProduct(s, k).Some?
    ensures FirstProduct(s + [x], k) == FirstProduct(s, k)
  {
    assert (s + [x])[..|s|] == s;
  }

  /** A movement of a product not yet in the map stores it with its
      quantity, its id going last. */
  lemma AddNewKeepsMap(s: seq<StockMovement>, x: StockMovement, g: MovedGroups)
    requires MovedMap(s, g.order, g.data) && x.product.Some? && x.product.value.id !in g.data
    ensures MovedMap(s + [x], AddMovement(g, x).order, AddMovement(g, x).data)
  {
    var id := x.product.value.id;
    var f := Filter(s, HasProduct);
    FirstProductFound(s);
    MovedSnoc(s, x);
    GroupSnoc(f, x, MovedId, Quantity);
    TotalAbsent(f, MovedId, id, Quantity);
    assert Filter(s + [x], HasProduct) == f + [x];
    var g' := AddMovement(g, x);
    forall t | 0 <= t < |g'.order| ensures g'.order[t] in g'.data {
      if t < |g.order| { assert g'.order[t] == g.order[t]; }
    }
    forall k | k in g'.data
      ensures FirstProduct(s + [x], k).Some?
      ensures g'.data[k] == MovedProduct(FirstProduct(s + [x], k).value, Total(f + [x], MovedId, k, Quantity))
    {
      if k != id { assert k in g.data; }
    }
  }

  /** A pass of the loop body keeps the map in step with the movements. */
  lemma AddMovementKeepsMap(s: seq<StockMovement>, x: StockMovement, g: MovedGroups)
    requires MovedMap(s, g.order, g.data)
    ensures MovedMap(s + [x], AddMovement(g, x).order, AddMovement(g, x).data)
  {
    if x.product.None? {
      SkipKeepsMap(s, x, g);
    } else if x.product.value.id in g.data {
      AddKnownKeepsMap(s, x, g);
    } else {
      AddNewKeepsMap(s, x, g);
    }
  }

  /** After any number of movements, the map holds, per id in order of first
      appearance, the first product seen and its total quantity. */
  lemma {:induction false} GroupedIsMovedMap(s: seq<StockMovement>)
    ensures MovedMap(s, Grouped(s).order, Grouped(s).data)
    decreases |s|
  {
    if s != [] {
      var s' := s[..|s| - 1];
      GroupedIsMovedMap(s');
      AddMovementKeepsMap(s', s[|s| - 1], Grouped(s'));
      assert s' + [s[|s| - 1]] == s;
    }
  }

  /** The map's values, read in key order, are the entries. */
  lemma MovedEntriesFromMap(movements: seq<StockMovement>, order: seq<int>, data: map<int, MovedProduct>, entries: seq<MovedProduct>)
    requires MovedMap(movements, order, data)
    requires |entries| == |order| && forall t :: 0 <= t < |order| ==> order[t] in data && entries[t] == data[order[t]]
    ensures Take(SortBy(entries, NegCount), 10) == MostMoved(movements)
  {
    var e := MovedEntries(movements);
    forall t | 0 <= t < |order| ensures entries[t] == e[t] {
      assert order[t] in order;
    }
    assert entries == e;
  }

  /** `Array.from(map.values())`: the values in key insertion order. */
  method MapValues(order: seq<int>, data: map<int, MovedProduct>) returns (values: seq<MovedProduct>)
    requires forall t :: 0 <= t < |order| ==> order[t] in data
    ensures |values| == |order|
    ensures forall t :: 0 <= t < |order| ==> order[t] in data && values[t] == data[order[t]]
  {
    values := [];
    var j := 0;
    while j < |order|
      invariant 0 <= j <= |order|
      invariant |values| == j
      invariant forall t :: 0 <= t < j ==> order[t] in data && values[t] == data[order[t]]
    {
      values := values + [data[order[j]]];
      j := j + 1;
    }
  }

  /** The `forEach` that fills the map. */
  method GroupMovedProducts(movements: seq<StockMovement>) returns (order: seq<int>, data: map<int, MovedProduct>)
    ensures MovedGroups(order, data) == Grouped(movements)
  {
    order, data := [], map[];
    var i := 0;
    while i < |movements|
      invariant 0 <= i <= |movements|
      invariant MovedGroups(order, data) == Grouped(movements[..i])
    {
      var movement := movements[i];
      ghost var before := MovedGroups(order, data);
      if movement.product.Some? {
        var productId := movement.product.value.id;
        if productId in data {
          data := data[productId := data[productId].(count := data[productId].count + movement.quantity)];
        } else {
          order := order + [productId];
          data := data[productId := MovedProduct(movement.product.value, movement.quantity)];
        }
      }
      assert MovedGroups(order, data) == AddMovement(before, movement);
      assert movements[..i + 1][..i] == movements[..i];
      assert Grouped(movements[..i + 1]) == AddMovement(Grouped(movements[..i]), movement);
      i := i + 1;
    }
    assert movements[..i] == movements;
  }

  /** `prepareMostMovedProducts`: group, read the values in order, sort by
      count descending and keep ten. */
  method PrepareMostMovedProducts(movements: seq<StockMovement>) returns (r: seq<MovedProduct>)
    ensures r == MostMoved(movements)
  {
    var order, data := GroupMovedProducts(movements);
    GroupedIsMovedMap(movements);
    var entries := MapValues(order, data);
    MovedEntriesFromMap(movements, order, data, entries);
    r := Take(SortBy(entries, NegCount), 10);
  }

  /** The table lists distinct products, largest count first; each row's
      count is the quantity of all movements of that product; and no product
      left out moved more than one that is listed. With ten products or
      fewer, all of them are listed. */
  lemma MostMovedSpec(movements: seq<StockMovement>)
    ensures |MostMoved(movements)| == if |MovedEntries(movements)| < 10 then |MovedEntries(movements)| else 10
    ensures forall i, j :: 0 <= i < j < |MostMoved(movements)| ==> MostMoved(movements)[i].count >= MostMoved(movements)[j].count
    ensures forall i, j :: 0 <= i < j < |MostMoved(movements)| ==> MostMoved(movements)[i].product.id != MostMoved(movements)[j].product.id
    ensures forall e :: e in MostMoved(movements) ==> e in MovedEntries(movements)
    ensures forall e :: e in MovedEntries(movements) && e !in MostMoved(movements) ==>
              forall i :: 0 <= i < |MostMoved(movements)| ==> MostMoved(movements)[i].count >= e.count
    ensures |MovedEntries(movements)| <= 10 ==> forall e :: e in MovedEntries(movements) ==> e in MostMoved(movements)
  {
    var entries := MovedEntries(movements);
    var sorted := SortBy(entries, NegCount);
    var r := MostMoved(movements);
    MostMovedDistinct(movements);
    forall e | e in entries && e !in r
      ensures forall i :: 0 <= i < |r| ==> r[i].count >= e.count
    {
      assert e in multiset(sorted);
      TakeSortedTop(sorted, NegCount, 10, e);
    }
    if |entries| <= 10 {
      forall e | e in entries ensures e in r {
        assert e in multiset(r);
      }
    }
  }

  /** No product appears twice in the table: the grouped entries have
      distinct ids, and sorting and slicing keep them apart. */
  lemma MostMovedDistinct(movements: seq<StockMovement>)
    ensures forall i, j :: 0 <= i < j < |MostMoved(movements)| ==> MostMoved(movements)[i].product.id != MostMoved(movements)[j].product.id
  {
    var entries := MovedEntries(movements);
    var sorted := SortBy(entries, NegCount);
    var r := MostMoved(movements);
    var ks := Keys(Filter(movements, HasProduct), MovedId);
    KeysSpec(Filter(movements, HasProduct), MovedId);
    assert Distinct(entries) by {
      forall a, b | 0 <= a < b < |entries| ensures entries[a] != entries[b] {
        assert entries[a].product.id == ks[a];
      }
    }
    DistinctPermutation(entries, sorted);
    forall i, j | 0 <= i < j < |r| ensures r[i].product.id != r[j].product.id {
      assert r[i] == sorted[i] && r[j] == sorted[j];
      assert r[i] in entries && r[j] in entries;
      var a :| 0 <= a < |entries| && entries[a] == r[i];
      var b :| 0 <= b < |entries| && entries[b] == r[j];
      assert a != b;
    }
  }

  // ---------------------------------------------------------------------
  // Stock value per category
  // ---------------------------------------------------------------------

  const UNCATEGORIZED: string := "Kategorisiz"

  predicate CategoryHasId(id: int, c: ProductCategory) {
    c.id == id
  }

  /** The slice a product's value goes to: its embedded category's name when
      non-empty; otherwise, when it has a category id other than 0 and the
      category list has loaded, the name of the first category with that id;
      otherwise "Kategorisiz". */
  function CategoryLabel(allCategories: seq<ProductCategory>, p: Product): (r: string)
    ensures (p.category.Some? && p.category.value.name != "") ==> r == p.category.value.name
    ensures r != UNCATEGORIZED ==>
              (p.category.Some? && r == p.category.value.name)
              || (exists i :: 0 <= i < |allCategories| && allCategories[i].id == p.categoryId && r == allCategories[i].name)
    ensures ((p.category.None? || p.category.value.name == "") && (p.categoryId == 0 || allCategories == []))
              ==> r == UNCATEGORIZED
    ensures forall i ::
              ((p.category.None? || p.category.value.name == "") && p.categoryId != 0
               && 0 <= i < |allCategories| && allCategories[i].id == p.categoryId
               && (forall j :: 0 <= j < i ==> allCategories[j].id != p.categoryId)) ==>
              r == allCategories[i].name
    ensures ((p.category.None? || p.category.value.name == "") && p.categoryId != 0
             && forall i :: 0 <= i < |allCategories| ==> allCategories[i].id != p.categoryId)
              ==> r == UNCATEGORIZED
  {
    if p.category.Some? && p.category.value.name != "" then p.category.value.name
    else if p.categoryId != 0 && |allCategories| > 0 then
      match Find(allCategories, (c: ProductCategory) => CategoryHasId(p.categoryId, c))
      case Some(c) => c.name
      case None => UNCATEGORIZED
    else UNCATEGORIZED
  }

  function LabelKey(allCategories: seq<ProductCategory>): Product -> string {
    (p: Product) => CategoryLabel(allCategories, p)
  }

  /** A slice of the pie: a category name and its rounded stock value. */
  datatype CategoryValue = CategoryValue(name: string, value: int)

  function CategoryValueFor(filtered: seq<Product>, allCategories: seq<ProductCategory>): string -> CategoryValue {
    (k: string) => CategoryValue(k, Round(Total(filtered, LabelKey(allCategories), k, StockValue)))
  }

  /** `prepareCategoryStockValue`: per category name, in order of first
      appearance, the rounded sum of stock times purchase price. */
  function CategoryStockValue(filtered: seq<Product>, allCategories: seq<ProductCategory>): (r: seq<CategoryValue>)
    ensures filtered == [] ==> r == []
    ensures forall k :: 0 <= k < |r| ==> exists i :: 0 <= i < |filtered| && CategoryLabel(allCategories, filtered[i]) == r[k].name
  {
    var ks := Keys(filtered, LabelKey(allCategories));
    KeysSpec(filtered, LabelKey(allCategories));
    assert forall k :: 0 <= k < |ks| ==> ks[k] in ks;
    Map(ks, CategoryValueFor(filtered, allCategories))
  }

  /** The first loop of `prepareCategoryStockValue`: each product's stock
      value added to its category name's running total, a new name going
      last. */
  method GroupCategoryValues(filtered: seq<Product>, allCategories: seq<ProductCategory>)
    returns (order: seq<string>, categoryValues: map<string, real>)
    ensures Groups(order, categoryValues) == GroupSum(filtered, LabelKey(allCategories), StockValue)
  {
    ghost var key := LabelKey(allCategories);
    order := [];
    categoryValues := map[];
    var i := 0;
    while i < |filtered|
      invariant 0 <= i <= |filtered|
      invariant Groups(order, categoryValues) == GroupSum(filtered[..i], key, StockValue)
    {
      var product := filtered[i];
      var categoryName := CategoryLabel(allCategories, product);
      var value := StockValue(product);
      ghost var before := Groups(order, categoryValues);
      var existing := if categoryName in categoryValues then categoryValues[categoryName] else 0.0;
      if categoryName !in categoryValues {
        order := order + [categoryName];
      }
      categoryValues := categoryValues[categoryName := existing + value];
      assert Groups(order, categoryValues) == AddTo(before, categoryName, value);
      CategoryStep(filtered, allCategories, i);
      i := i + 1;
    }
    assert filtered[..i] == filtered;
  }

  /** The groups of one more product are those of the products before it
      with its stock value added under its category name. */
  lemma CategoryStep(filtered: seq<Product>, allCategories: seq<ProductCategory>, i: int)
    requires 0 <= i < |filtered|
    ensures GroupSum(filtered[..i + 1], LabelKey(allCategories), StockValue)
            == AddTo(GroupSum(filtered[..i], LabelKey(allCategories), StockValue),
                     CategoryLabel(allCategories, filtered[i]), StockValue(filtered[i]))
  {
    assert filtered[..i + 1] == filtered[..i] + [filtered[i]];
    GroupSumSnoc(filtered[..i], filtered[i], LabelKey(allCategories), StockValue);
  }

  /** `prepareCategoryStockValue`: the grouped totals, rounded, one slice per
      name in order of first appearance. */
  method PrepareCategoryStockValue(filtered: seq<Product>, allCategories: seq<ProductCategory>) returns (r: seq<CategoryValue>)
    ensures r == CategoryStockValue(filtered, allCategories)
  {
    var order, categoryValues := GroupCategoryValues(filtered, allCategories);
    GroupSumSpec(filtered, LabelKey(allCategories), StockValue);
    r := [];
    var j := 0;
    while j < |order|
      invariant 0 <= j <= |order|
      invariant |r| == j
      invariant forall t :: 0 <= t < j ==> r[t] == CategoryValue(order[t], Round(categoryValues[order[t]]))
    {
      r := r + [CategoryValue(order[j], Round(categoryValues[order[j]]))];
      j := j + 1;
    }
  }

  function SliceTotal(filtered: seq<Product>, allCategories: seq<ProductCategory>): string -> real {
    (k: string) => Total(filtered, LabelKey(allCategories), k, StockValue)
  }

  /** One slice per category name that occurs and no other; each slice is
      its unrounded total rounded to the nearest integer; and the unrounded
      totals add up to the stock value of all the products shown. */
  lemma CategoryStockValueSpec(filtered: seq<Product>, allCategories: seq<ProductCategory>)
    ensures forall a, b :: 0 <= a < b < |CategoryStockValue(filtered, allCategories)| ==>
              CategoryStockValue(filtered, allCategories)[a].name != CategoryStockValue(filtered, allCategories)[b].name
    ensures forall p :: p in filtered ==>
              exists i :: 0 <= i < |CategoryStockValue(filtered, allCategories)| && CategoryStockValue(filtered, allCategories)[i].name == CategoryLabel(allCategories, p)
    ensures forall i :: 0 <= i < |CategoryStockValue(filtered, allCategories)| ==>
              var slice := CategoryStockValue(filtered, allCategories)[i];
              slice.value as real - 0.5 <= SliceTotal(filtered, allCategories)(slice.name) < slice.value as real + 0.5
    ensures SumTotals(Keys(filtered, LabelKey(allCategories)), filtered, LabelKey(allCategories), StockValue) == Sum(filtered, StockValue)
  {
    var key := LabelKey(allCategories);
    var ks := Keys(filtered, key);
    var r := CategoryStockValue(filtered, allCategories);
    KeysSpec(filtered, key);
    forall p | p in filtered
      ensures exists i :: 0 <= i < |r| && r[i].name == CategoryLabel(allCategories, p)
    {
      var m :| 0 <= m < |filtered| && filtered[m] == p;
      assert key(filtered[m]) == CategoryLabel(allCategories, p);
      assert CategoryLabel(allCategories, p) in ks;
      var i :| 0 <= i < |ks| && ks[i] == CategoryLabel(allCategories, p);
      assert r[i].name == ks[i];
    }
    SumOfTotals(filtered, key, StockValue);
  }
}
