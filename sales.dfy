/** Sales history and the reports computed from it: the summary of a date
    window, per-product and per-category figures, the daily trend, the hourly
    pattern, the combined report and its flattened rows. Timestamps are whole
    seconds of local time; a date is the day number `t / 86400` and the hour of
    day is `(t % 86400) / 3600`. The current time is a parameter. */
module Sales {
  import opened Basics
  import opened Values

  type Timestamp = int


  /** `timestamp.date()` as a day number (rounded down, also before day 0). */
  function DayOf(t: Timestamp): int {
    t / 86400
  }

  /** `timestamp.hour` */
  function HourOf(t: Timestamp): (h: int)
    ensures 0 <= h < 24
  {
    (t % 86400) / 3600
  }

  /** One line of a sale; every key may be missing. */
  datatype SaleItem = SaleItem(
    name: Option<string>,
    category: Option<string>,
    quantity: Option<int>,
    price: Option<real>)

  function OrElse<T>(o: Option<T>, default: T): T {
    if o.Some? then o.value else default
  }

  /** `item.get('quantity', 0)` */
  function Quantity(it: SaleItem): int {
    OrElse(it.quantity, 0)
  }

  /** `quantity * price` with `item.get('price', 0.0)` */
  function LineRevenue(it: SaleItem): real {
    Quantity(it) as real * OrElse(it.price, 0.0)
  }

  /** The grouping key of the product report: `item.get('name', 'Unknown Product')`. */
  function ProductName(it: SaleItem): string {
    OrElse(it.name, "Unknown Product")
  }

  /** The grouping key of the category report: `item.get('category', 'Uncategorized')`. */
  function CategoryName(it: SaleItem): string {
    OrElse(it.category, "Uncategorized")
  }

  /** The name the category report counts: `item.get('name', 'Unknown')`. */
  function CountedName(it: SaleItem): string {
    OrElse(it.name, "Unknown")
  }

  datatype SalesRecord = SalesRecord(
    id: string,
    timestamp: Timestamp,
    items: seq<SaleItem>,
    subtotal: real,
    tax: real,
    total: real,
    tendered: real,
    change: real,
    paymentMethod: string,
    customerId: string,
    salespersonId: string)

  /** A date window, inclusive at both ends. */
  datatype Window = Window(start: Timestamp, end: Timestamp)

  /** The window of the reports: missing ends default to the last 30 days
      before `now`. */
  function DefaultWindow(start: Option<Timestamp>, end: Option<Timestamp>, now: Timestamp): Window {
    Window(OrElse(start, now - 30 * 86400), OrElse(end, now))
  }

  predicate InWindow(s: SalesRecord, w: Window) {
    w.start <= s.timestamp <= w.end
  }

  /** The sales inside the window, in recorded order. */
  function InRange(records: seq<SalesRecord>, w: Window): (r: seq<SalesRecord>)
    ensures forall s :: s in r <==> s in records && InWindow(s, w)
    ensures |r| <= |records|
  {
    Keep(records, (s: SalesRecord) => InWindow(s, w))
  }

  lemma InRangeAppend(records: seq<SalesRecord>, s: SalesRecord, w: Window)
    ensures InRange(records + [s], w) == InRange(records, w) + (if InWindow(s, w) then [s] else [])
  {
    assert (records + [s])[..|records|] == records;
  }

  function SumTotals(ss: seq<SalesRecord>): real {
    if ss == [] then 0.0 else SumTotals(ss[..|ss| - 1]) + ss[|ss| - 1].total
  }

  function SumTax(ss: seq<SalesRecord>): real {
    if ss == [] then 0.0 else SumTax(ss[..|ss| - 1]) + ss[|ss| - 1].tax
  }

  /** The figures of `get_sales_summary`; the date range is given by its two
      day numbers. */
  datatype Summary = Summary(
    totalSales: real,
    totalRevenue: real,
    totalTax: real,
    averageSale: real,
    totalTransactions: nat,
    dateRange: (int, int))

  /** `get_sales_summary`: sums over the sales inside the window; an empty
      window gives zeros. */
  function SalesSummary(records: seq<SalesRecord>, w: Window): (r: Summary)
    ensures r.totalTransactions == |InRange(records, w)|
    ensures r.totalSales == r.totalRevenue == SumTotals(InRange(records, w))
    ensures r.totalTax == SumTax(InRange(records, w))
    ensures r.totalTransactions > 0 ==> r.averageSale * r.totalTransactions as real == r.totalRevenue
    ensures r.totalTransactions == 0 ==> r.averageSale == 0.0
    ensures r.dateRange == (DayOf(w.start), DayOf(w.end))
  {
    var sales := InRange(records, w);
    if sales == [] then Summary(0.0, 0.0, 0.0, 0.0, 0, (DayOf(w.start), DayOf(w.end)))
    else
      var revenue := SumTotals(sales);
      var average := revenue / |sales| as real;
      assert average * |sales| as real == revenue;
      Summary(revenue, revenue, SumTax(sales), average, |sales|, (DayOf(w.start), DayOf(w.end)))
  }

  /** Recording a sale changes the summary of a window only when the sale
      falls inside it, and then by one transaction and its total. */
  lemma SummaryAfterSale(records: seq<SalesRecord>, s: SalesRecord, w: Window)
    ensures var before := SalesSummary(records, w);
      var after := SalesSummary(records + [s], w);
      if InWindow(s, w) then
        after.totalTransactions == before.totalTransactions + 1
        && after.totalRevenue == before.totalRevenue + s.total
        && after.totalTax == before.totalTax + s.tax
      else after == before
  {
    InRangeAppend(records, s, w);
    var sales := InRange(records, w);
    if InWindow(s, w) {
      assert (sales + [s])[..|sales|] == sales;
    } else {
      assert sales + [] == sales;
    }
  }

  /** A window that ends before it starts holds no sale. */
  lemma EmptyWindow(records: seq<SalesRecord>, w: Window)
    requires w.end < w.start
    ensures SalesSummary(records, w) == Summary(0.0, 0.0, 0.0, 0.0, 0, (DayOf(w.start), DayOf(w.end)))
  {
    NothingInRange(records, w);
  }

  lemma {:induction false} NothingInRange(records: seq<SalesRecord>, w: Window)
    requires forall k :: 0 <= k < |records| ==> !InWindow(records[k], w)
    ensures InRange(records, w) == []
  {
    if records != [] {
      NothingInRange(records[..|records| - 1], w);
    }
  }

  /** The line items of the sales, sale by sale. */
  function ItemsOf(sales: seq<SalesRecord>): seq<SaleItem> {
    if sales == [] then [] else ItemsOf(sales[..|sales| - 1]) + sales[|sales| - 1].items
  }

  // ---------------------------------------------------------------------------
  // Sorting by revenue

  ghost predicate SortedDesc<T>(xs: seq<T>, key: T -> real) {
    forall i, j :: 0 <= i < j < |xs| ==> key(xs[i]) >= key(xs[j])
  }

  /** Inserts `x` before the first element whose key is smaller than its own. */
  function InsertDesc<T(==)>(xs: seq<T>, x: T, key: T -> real): (r: seq<T>)
    ensures multiset(r) == multiset(xs) + multiset{x}
    ensures |r| == |xs| + 1
  {
    if xs == [] then [x]
    else if key(xs[0]) < key(x) then [x] + xs
    else
      assert xs == [xs[0]] + xs[1..];
      [xs[0]] + InsertDesc(xs[1..], x, key)
  }

  /** Inserting into a sorted sequence keeps it sorted. */
  lemma {:induction false} InsertDescSorted<T>(xs: seq<T>, x: T, key: T -> real)
    requires SortedDesc(xs, key)
    ensures SortedDesc(InsertDesc(xs, x, key), key)
  {
    if xs != [] && key(xs[0]) >= key(x) {
      var rest := InsertDesc(xs[1..], x, key);
      InsertDescSorted(xs[1..], x, key);
      var r := [xs[0]] + rest;
      forall j | 0 < j < |r|
        ensures key(r[0]) >= key(r[j])
      {
        assert r[j] in multiset(rest);
        assert r[j] in multiset(xs[1..]) || r[j] == x;
        if r[j] != x {
          var k :| 0 <= k < |xs[1..]| && xs[1..][k] == r[j];
          assert xs[k + 1] == r[j];
        }
      }
    }
  }

  /** `list.sort(key=revenue, reverse=True)`: non-increasing keys, the same
      elements. */
  function SortDesc<T(==)>(xs: seq<T>, key: T -> real): (r: seq<T>)
    ensures multiset(r) == multiset(xs)
    ensures |r| == |xs|
    ensures SortedDesc(r, key)
  {
    if xs == [] then []
    else
      assert xs == xs[..|xs| - 1] + [xs[|xs| - 1]];
      var sorted := SortDesc(xs[..|xs| - 1], key);
      InsertDescSorted(sorted, xs[|xs| - 1], key);
      InsertDesc(sorted, xs[|xs| - 1], key)
  }

  lemma SortedHasSameElements<T>(xs: seq<T>, key: T -> real, y: T)
    ensures y in SortDesc(xs, key) <==> y in xs
  {
    assert y in SortDesc(xs, key) <==> y in multiset(SortDesc(xs, key));
    assert y in xs <==> y in multiset(xs);
  }

  /** `xs[:10]` */
  function FirstTen<T>(xs: seq<T>): (r: seq<T>)
    ensures |r| == if |xs| < 10 then |xs| else 10
    ensures r <= xs
  {
    if |xs| < 10 then xs else xs[..10]
  }

  /** `xs[-10:]` */
  function LastTen<T>(xs: seq<T>): (r: seq<T>)
    ensures |r| == if |xs| < 10 then |xs| else 10
    ensures forall i :: 0 <= i < |r| ==> r[i] == xs[|xs| - |r| + i]
  {
    if |xs| < 10 then xs else xs[|xs| - 10..]
  }

  // ---------------------------------------------------------------------------
  // Grouping line items by a key (the `defaultdict` of the product and
  // category reports)

  /** The items whose key is `k`, in order. */
  function Group(items: seq<SaleItem>, key: SaleItem -> string, k: string): seq<SaleItem> {
    if items == [] then []
    else
      var it := items[|items| - 1];
      Group(items[..|items| - 1], key, k) + (if key(it) == k then [it] else [])
  }

  /** The keys the items are grouped under. */
  function KeySet(items: seq<SaleItem>, key: SaleItem -> string): set<string> {
    if items == [] then {} else KeySet(items[..|items| - 1], key) + {key(items[|items| - 1])}
  }

  /** The figures of a group, accumulated item by item from `zero`. */
  function Fold<V>(items: seq<SaleItem>, add: (V, SaleItem) -> V, zero: V): V {
    if items == [] then zero else add(Fold(items[..|items| - 1], add, zero), items[|items| - 1])
  }

  /** One pass of the inner loop: the item's key gets the item added, starting
      from `zero` when the key is new. */
  function AddToGroup<V>(d: Entries<V>, it: SaleItem, key: SaleItem -> string, add: (V, SaleItem) -> V,
                         zero: V): Entries<V> {
    Put(d, key(it), add(GetOr(d, key(it), zero), it))
  }

  /** The dictionary after the items, in order. */
  function GroupBy<V>(items: seq<SaleItem>, key: SaleItem -> string, add: (V, SaleItem) -> V, zero: V): Entries<V> {
    if items == [] then []
    else AddToGroup(GroupBy(items[..|items| - 1], key, add, zero), items[|items| - 1], key, add, zero)
  }

  lemma GroupByAppend<V>(items: seq<SaleItem>, it: SaleItem, key: SaleItem -> string, add: (V, SaleItem) -> V,
                         zero: V)
    ensures GroupBy(items + [it], key, add, zero) == AddToGroup(GroupBy(items, key, add, zero), it, key, add, zero)
    ensures Group(items + [it], key, key(it)) == Group(items, key, key(it)) + [it]
    ensures forall k :: k != key(it) ==> Group(items + [it], key, k) == Group(items, key, k)
    ensures Fold(Group(items, key, key(it)) + [it], add, zero) == add(Fold(Group(items, key, key(it)), add, zero), it)
  {
    assert (items + [it])[..|items|] == items;
    var g := Group(items, key, key(it));
    assert (g + [it])[..|g|] == g;
    forall k | k != key(it)
      ensures Group(items + [it], key, k) == Group(items, key, k)
    {
      assert Group(items, key, k) + [] == Group(items, key, k);
    }
  }

  lemma GroupByStep<V>(items: seq<SaleItem>, it: SaleItem, key: SaleItem -> string, add: (V, SaleItem) -> V, zero: V)
    ensures GroupBy(items + [it], key, add, zero) == AddToGroup(GroupBy(items, key, add, zero), it, key, add, zero)
  {
    assert (items + [it])[..|items|] == items;
  }

  lemma GroupByPrefixStep<V>(before: seq<SaleItem>, items: seq<SaleItem>, j: nat, key: SaleItem -> string,
                             add: (V, SaleItem) -> V, zero: V)
    requires j < |items|
    ensures GroupBy(before + items[..j + 1], key, add, zero)
         == AddToGroup(GroupBy(before + items[..j], key, add, zero), items[j], key, add, zero)
  {
    assert before + items[..j + 1] == (before + items[..j]) + [items[j]];
    GroupByStep(before + items[..j], items[j], key, add, zero);
  }

  /** The keys of the dictionary are exactly those of the items, each once. */
  lemma {:induction false} GroupByKeys<V>(items: seq<SaleItem>, key: SaleItem -> string, add: (V, SaleItem) -> V,
                                          zero: V, k: string)
    ensures UniqueKeys(GroupBy(items, key, add, zero))
    ensures HasKey(GroupBy(items, key, add, zero), k) <==> k in KeySet(items, key)
  {
    if items != [] {
      var init := items[..|items| - 1];
      var it := items[|items| - 1];
      assert items == init + [it];
      GroupByKeys(init, key, add, zero, k);
      GroupByAppend(init, it, key, add, zero);
      var before := GroupBy(init, key, add, zero);
      var v := add(GetOr(before, key(it), zero), it);
      PutKeepsUnique(before, key(it), v);
      LookupPut(before, key(it), v, k);
    }
  }

  /** Each key maps to the figures of exactly the items with that key. */
  lemma {:induction false} GroupByMeaning<V>(items: seq<SaleItem>, key: SaleItem -> string, add: (V, SaleItem) -> V,
                                             zero: V, k: string)
    ensures Lookup(GroupBy(items, key, add, zero), k) ==
      if Group(items, key, k) == [] then None else Some(Fold(Group(items, key, k), add, zero))
  {
    if items != [] {
      var init := items[..|items| - 1];
      var it := items[|items| - 1];
      assert items == init + [it];
      GroupByMeaning(init, key, add, zero, k);
      GroupByAppend(init, it, key, add, zero);
      var before := GroupBy(init, key, add, zero);
      var v := add(GetOr(before, key(it), zero), it);
      LookupPut(before, key(it), v, k);
      if key(it) == k {
        assert GetOr(before, k, zero) == Fold(Group(init, key, k), add, zero);
        assert (Group(init, key, k) + [it])[|Group(init, key, k)|] == it;
      }
    }
  }

  /** Distinct keys: as many entries as keys. */
  lemma {:induction false} DistinctKeysCount<V>(d: Entries<V>)
    requires UniqueKeys(d)
    ensures |set i | 0 <= i < |d| :: d[i].0| == |d|
  {
    if d != [] {
      var init := d[..|d| - 1];
      DistinctKeysCount(init);
      var s := set i | 0 <= i < |init| :: init[i].0;
      assert (set i | 0 <= i < |d| :: d[i].0) == s + {d[|d| - 1].0};
      assert d[|d| - 1].0 !in s;
    }
  }

  /** The dictionary has one entry per distinct key of the items. */
  lemma GroupByCount<V>(items: seq<SaleItem>, key: SaleItem -> string, add: (V, SaleItem) -> V, zero: V)
    ensures |GroupBy(items, key, add, zero)| == |KeySet(items, key)|
  {
    var d := GroupBy(items, key, add, zero);
    GroupByKeys(items, key, add, zero, "");
    forall k
      ensures k in (set i | 0 <= i < |d| :: d[i].0) <==> k in KeySet(items, key)
    {
      GroupByKeys(items, key, add, zero, k);
      if k in KeySet(items, key) {
        assert d[IndexOf(d, k)].0 == k;
      }
    }
    assert (set i | 0 <= i < |d| :: d[i].0) == KeySet(items, key);
    DistinctKeysCount(d);
  }

  /** The entry at position `i` of a dictionary with distinct keys is what its
      key looks up. */
  lemma EntryLookup<V>(d: Entries<V>, i: nat)
    requires UniqueKeys(d) && i < |d|
    ensures Lookup(d, d[i].0) == Some(d[i].1)
  {
    LookupAt(d, d[i].0, i);
  }

  /** The nested `for sale ... for item ...` loops of the product and category
      reports. */
  method GroupItems<V>(sales: seq<SalesRecord>, key: SaleItem -> string, add: (V, SaleItem) -> V, zero: V)
    returns (d: Entries<V>)
    ensures d == GroupBy(ItemsOf(sales), key, add, zero)
  {
    d := [];
    var i := 0;
    while i < |sales|
      invariant 0 <= i <= |sales|
      invariant d == GroupBy(ItemsOf(sales[..i]), key, add, zero)
    {
      d := GroupSaleItems(d, ItemsOf(sales[..i]), sales[i].items, key, add, zero);
      assert sales[..i + 1][..i] == sales[..i];
      assert ItemsOf(sales[..i + 1]) == ItemsOf(sales[..i]) + sales[i].items;
      i := i + 1;
    }
    assert sales[..i] == sales;
  }

  /** The inner loop over one sale's items. */
  method GroupSaleItems<V>(d0: Entries<V>, ghost before: seq<SaleItem>, items: seq<SaleItem>,
                           key: SaleItem -> string, add: (V, SaleItem) -> V, zero: V)
    returns (d: Entries<V>)
    requires d0 == GroupBy(before, key, add, zero)
    ensures d == GroupBy(before + items, key, add, zero)
  {
    d := d0;
    var j := 0;
    assert before + items[..0] == before;
    while j < |items|
      invariant 0 <= j <= |items|
      invariant d == GroupBy(before + items[..j], key, add, zero)
    {
      GroupByPrefixStep(before, items, j, key, add, zero);
      d := AddToGroup(d, items[j], key, add, zero);
      j := j + 1;
    }
    assert items[..j] == items;
  }

  function SumQuantity(items: seq<SaleItem>): int {
    if items == [] then 0 else SumQuantity(items[..|items| - 1]) + Quantity(items[|items| - 1])
  }

  function SumRevenue(items: seq<SaleItem>): real {
    if items == [] then 0.0 else SumRevenue(items[..|items| - 1]) + LineRevenue(items[|items| - 1])
  }

  // ---------------------------------------------------------------------------
  // Product performance

  datatype ProductStats = ProductStats(quantitySold: int, revenue: real, transactions: nat)

  const NoProductSales: ProductStats := ProductStats(0, 0.0, 0)

  /** `+= quantity`, `+= quantity * price`, `+= 1` */
  function AddProductItem(s: ProductStats, it: SaleItem): ProductStats {
    ProductStats(s.quantitySold + Quantity(it), s.revenue + LineRevenue(it), s.transactions + 1)
  }

  /** The `product_stats` dictionary of some items. */
  function ProductStatsOf(items: seq<SaleItem>): Entries<ProductStats> {
    GroupBy(items, ProductName, AddProductItem, NoProductSales)
  }

  /** Accumulating a product's items gives their sums and their count. */
  lemma {:induction false} ProductFold(items: seq<SaleItem>)
    ensures Fold(items, AddProductItem, NoProductSales) == ProductStats(SumQuantity(items), SumRevenue(items), |items|)
  {
    if items != [] {
      ProductFold(items[..|items| - 1]);
    }
  }

  /** One row of the product report. */
  datatype ProductEntry = ProductEntry(
    name: string,
    quantitySold: int,
    revenue: real,
    transactions: nat,
    averagePrice: real)

  function ProductRow(name: string, s: ProductStats): ProductEntry {
    ProductEntry(name, s.quantitySold, s.revenue, s.transactions,
                 if s.quantitySold > 0 then s.revenue / s.quantitySold as real else 0.0)
  }

  function ProductRevenue(e: ProductEntry): real {
    e.revenue
  }

  function ProductRows(stats: Entries<ProductStats>): (rows: seq<ProductEntry>)
    ensures |rows| == |stats|
    ensures forall i :: 0 <= i < |stats| ==> rows[i] == ProductRow(stats[i].0, stats[i].1)
  {
    seq(|stats|, i requires 0 <= i < |stats| => ProductRow(stats[i].0, stats[i].1))
  }

  /** The report of `get_product_performance`. */
  datatype ProductReport = ProductReport(
    products: seq<ProductEntry>,
    topSellers: seq<ProductEntry>,
    worstSellers: seq<ProductEntry>,
    totalProducts: nat)

  /** The dictionary turned into rows, sorted by revenue, best and worst ten. */
  function ProductReportOf(stats: Entries<ProductStats>): (r: ProductReport)
    ensures |r.products| == r.totalProducts == |stats|
    ensures SortedDesc(r.products, ProductRevenue)
    ensures r.topSellers == FirstTen(r.products) && r.worstSellers == LastTen(r.products)
  {
    var sorted := SortDesc(ProductRows(stats), ProductRevenue);
    ProductReport(sorted, FirstTen(sorted), LastTen(sorted), |sorted|)
  }

  /** Every row of the product report carries the sums over exactly the items
      of its name. */
  lemma ProductRowFigures(items: seq<SaleItem>, e: ProductEntry)
    requires e in ProductReportOf(ProductStatsOf(items)).products
    ensures e.name in KeySet(items, ProductName)
    ensures var named := Group(items, ProductName, e.name);
      e.quantitySold == SumQuantity(named) && e.revenue == SumRevenue(named) && e.transactions == |named|
    ensures e.averagePrice == if e.quantitySold > 0 then e.revenue / e.quantitySold as real else 0.0
  {
    var stats := ProductStatsOf(items);
    var rows := ProductRows(stats);
    SortedHasSameElements(rows, ProductRevenue, e);
    var i :| 0 <= i < |rows| && rows[i] == e;
    GroupByKeys(items, ProductName, AddProductItem, NoProductSales, e.name);
    EntryLookup(stats, i);
    GroupByMeaning(items, ProductName, AddProductItem, NoProductSales, e.name);
    ProductFold(Group(items, ProductName, e.name));
  }

  /** Every product name of the items has a row. */
  lemma ProductNameHasRow(items: seq<SaleItem>, name: string)
    requires name in KeySet(items, ProductName)
    ensures exists e :: e in ProductReportOf(ProductStatsOf(items)).products && e.name == name
  {
    var stats := ProductStatsOf(items);
    var rows := ProductRows(stats);
    GroupByKeys(items, ProductName, AddProductItem, NoProductSales, name);
    var i := IndexOf(stats, name);
    SortedHasSameElements(rows, ProductRevenue, rows[i]);
  }

  /** `get_product_performance` over some items: one row per distinct product
      name carrying the quantity, revenue and number of exactly that name's
      items, and as many rows as there are distinct names. */
  lemma ProductReportMeaning(items: seq<SaleItem>)
    ensures var r := ProductReportOf(ProductStatsOf(items));
      r.totalProducts == |KeySet(items, ProductName)|
      && (forall e :: e in r.products ==>
            e.name in KeySet(items, ProductName)
            && e.quantitySold == SumQuantity(Group(items, ProductName, e.name))
            && e.revenue == SumRevenue(Group(items, ProductName, e.name))
            && e.transactions == |Group(items, ProductName, e.name)|)
      && (forall n :: n in KeySet(items, ProductName) ==> exists e :: e in r.products && e.name == n)
  {
    GroupByCount(items, ProductName, AddProductItem, NoProductSales);
    forall e | e in ProductReportOf(ProductStatsOf(items)).products
      ensures e.name in KeySet(items, ProductName)
      ensures e.quantitySold == SumQuantity(Group(items, ProductName, e.name))
      ensures e.revenue == SumRevenue(Group(items, ProductName, e.name))
      ensures e.transactions == |Group(items, ProductName, e.name)|
    {
      ProductRowFigures(items, e);
    }
    forall n | n in KeySet(items, ProductName)
      ensures exists e :: e in ProductReportOf(ProductStatsOf(items)).products && e.name == n
    {
      ProductNameHasRow(items, n);
    }
  }

  // ---------------------------------------------------------------------------
  // Category performance

  datatype CategoryStats = CategoryStats(revenue: real, quantitySold: int, transactions: nat, products: set<string>)

  const NoCategorySales: CategoryStats := CategoryStats(0.0, 0, 0, {})

  /** `+= quantity * price`, `+= quantity`, `+= 1`, `products.add(name)` */
  function AddCategoryItem(s: CategoryStats, it: SaleItem): CategoryStats {
    CategoryStats(s.revenue + LineRevenue(it), s.quantitySold + Quantity(it), s.transactions + 1,
                  s.products + {CountedName(it)})
  }

  function CategoryStatsOf(items: seq<SaleItem>): Entries<CategoryStats> {
    GroupBy(items, CategoryName, AddCategoryItem, NoCategorySales)
  }

  /** Accumulating a category's items gives their sums, their count and the
      set of their names. */
  lemma {:induction false} CategoryFold(items: seq<SaleItem>)
    ensures Fold(items, AddCategoryItem, NoCategorySales) ==
      CategoryStats(SumRevenue(items), SumQuantity(items), |items|, KeySet(items, CountedName))
  {
    if items != [] {
      CategoryFold(items[..|items| - 1]);
    }
  }

  /** One row of the category report. */
  datatype CategoryEntry = CategoryEntry(
    category: string,
    revenue: real,
    quantitySold: int,
    transactions: nat,
    productCount: nat,
    averageTransaction: real)

  function CategoryRow(category: string, s: CategoryStats): CategoryEntry {
    CategoryEntry(category, s.revenue, s.quantitySold, s.transactions, |s.products|,
                  if s.transactions > 0 then s.revenue / s.transactions as real else 0.0)
  }

  function CategoryRevenue(e: CategoryEntry): real {
    e.revenue
  }

  function CategoryRows(stats: Entries<CategoryStats>): (rows: seq<CategoryEntry>)
    ensures |rows| == |stats|
    ensures forall i :: 0 <= i < |stats| ==> rows[i] == CategoryRow(stats[i].0, stats[i].1)
  {
    seq(|stats|, i requires 0 <= i < |stats| => CategoryRow(stats[i].0, stats[i].1))
  }

  /** The report of `get_category_performance`. */
  datatype CategoryReport = CategoryReport(
    categories: seq<CategoryEntry>,
    topCategory: Option<CategoryEntry>,
    totalCategories: nat)

  /** The rows sorted by revenue; the top category is the first row, if any,
      and no row has more revenue. */
  function CategoryReportOf(stats: Entries<CategoryStats>): (r: CategoryReport)
    ensures |r.categories| == r.totalCategories == |stats|
    ensures SortedDesc(r.categories, CategoryRevenue)
    ensures r.topCategory.None? <==> stats == []
    ensures r.topCategory.Some? ==>
      r.topCategory.value in r.categories
      && forall e :: e in r.categories ==> e.revenue <= r.topCategory.value.revenue
  {
    var sorted := SortDesc(CategoryRows(stats), CategoryRevenue);
    CategoryReport(sorted, if sorted == [] then None else Some(sorted[0]), |sorted|)
  }

  /** Every row of the category report carries the sums over exactly the items
      of its category, and counts their distinct names. */
  lemma CategoryRowFigures(items: seq<SaleItem>, e: CategoryEntry)
    requires e in CategoryReportOf(CategoryStatsOf(items)).categories
    ensures e.category in KeySet(items, CategoryName)
    ensures var its := Group(items, CategoryName, e.category);
      e.revenue == SumRevenue(its) && e.quantitySold == SumQuantity(its) && e.transactions == |its|
      && e.productCount == |KeySet(its, CountedName)|
    ensures e.averageTransaction == if e.transactions > 0 then e.revenue / e.transactions as real else 0.0
  {
    var stats := CategoryStatsOf(items);
    var rows := CategoryRows(stats);
    SortedHasSameElements(rows, CategoryRevenue, e);
    var i :| 0 <= i < |rows| && rows[i] == e;
    GroupByKeys(items, CategoryName, AddCategoryItem, NoCategorySales, e.category);
    EntryLookup(stats, i);
    GroupByMeaning(items, CategoryName, AddCategoryItem, NoCategorySales, e.category);
    CategoryFold(Group(items, CategoryName, e.category));
  }

  /** `get_category_performance` over some items: one row per distinct
      category (items without one count under "Uncategorized"), each carrying
      the figures of exactly that category's items, and no top category
      exactly when there are no items. */
  lemma CategoryReportMeaning(items: seq<SaleItem>)
    ensures var r := CategoryReportOf(CategoryStatsOf(items));
      r.totalCategories == |KeySet(items, CategoryName)|
      && (r.topCategory.None? <==> items == [])
      && (forall e :: e in r.categories ==>
            e.category in KeySet(items, CategoryName)
            && e.revenue == SumRevenue(Group(items, CategoryName, e.category))
            && e.transactions == |Group(items, CategoryName, e.category)|
            && e.productCount == |KeySet(Group(items, CategoryName, e.category), CountedName)|)
  {
    GroupByCount(items, CategoryName, AddCategoryItem, NoCategorySales);
    if items != [] {
      assert CategoryName(items[|items| - 1]) in KeySet(items, CategoryName);
    }
    forall e | e in CategoryReportOf(CategoryStatsOf(items)).categories
      ensures e.category in KeySet(items, CategoryName)
      ensures e.revenue == SumRevenue(Group(items, CategoryName, e.category))
      ensures e.transactions == |Group(items, CategoryName, e.category)|
      ensures e.productCount == |KeySet(Group(items, CategoryName, e.category), CountedName)|
    {
      CategoryRowFigures(items, e);
    }
  }

  /** An item without a category is counted under "Uncategorized". */
  lemma UncategorizedItems(items: seq<SaleItem>, it: SaleItem)
    requires it in items && it.category.None?
    ensures "Uncategorized" in KeySet(items, CategoryName)
    ensures it in Group(items, CategoryName, "Uncategorized")
  {
    InGroup(items, CategoryName, it);
  }

  lemma {:induction false} InGroup(items: seq<SaleItem>, key: SaleItem -> string, it: SaleItem)
    requires it in items
    ensures key(it) in KeySet(items, key) && it in Group(items, key, key(it))
  {
    var init := items[..|items| - 1];
    assert items == init + [items[|items| - 1]];
    if it != items[|items| - 1] {
      InGroup(init, key, it);
    }
  }

  // ---------------------------------------------------------------------------
  // Daily trend

  /** The figures of one date (or of any set of sales). */
  datatype DayStats = DayStats(revenue: real, transactions: int, itemsSold: int)

  const NoDaySales: DayStats := DayStats(0.0, 0, 0)

  function Plus(a: DayStats, b: DayStats): DayStats {
    DayStats(a.revenue + b.revenue, a.transactions + b.transactions, a.itemsSold + b.itemsSold)
  }

  /** One sale's contribution: its total, one transaction, its quantities. */
  function SaleStats(s: SalesRecord): DayStats {
    DayStats(s.total, 1, SumQuantity(s.items))
  }

  /** The figures of the window's sales on date `day`. */
  function StatsOn(records: seq<SalesRecord>, w: Window, day: int): DayStats {
    if records == [] then NoDaySales
    else
      var s := records[|records| - 1];
      Plus(StatsOn(records[..|records| - 1], w, day),
           if InWindow(s, w) && DayOf(s.timestamp) == day then SaleStats(s) else NoDaySales)
  }

  /** The figures of all the window's sales. */
  function WindowStats(records: seq<SalesRecord>, w: Window): DayStats {
    if records == [] then NoDaySales
    else
      var s := records[|records| - 1];
      Plus(WindowStats(records[..|records| - 1], w), if InWindow(s, w) then SaleStats(s) else NoDaySales)
  }

  /** The window's figures are the summary's: its revenue and its number of
      sales. */
  lemma {:induction false} WindowStatsSummary(records: seq<SalesRecord>, w: Window)
    ensures WindowStats(records, w).revenue == SumTotals(InRange(records, w))
    ensures WindowStats(records, w).transactions == |InRange(records, w)|
  {
    if records != [] {
      var init := records[..|records| - 1];
      var s := records[|records| - 1];
      WindowStatsSummary(init, w);
      assert records == init + [s];
      InRangeAppend(init, s, w);
      if InWindow(s, w) {
        var r := InRange(init, w);
        assert (r + [s])[..|r|] == r;
      } else {
        assert InRange(init, w) + [] == InRange(init, w);
      }
    }
  }

  function At(m: map<int, DayStats>, day: int): DayStats {
    if day in m then m[day] else NoDaySales
  }

  /** The `daily_sales` dictionary: the window's sales added to their date. */
  function DailyOf(records: seq<SalesRecord>, w: Window): map<int, DayStats> {
    if records == [] then map[]
    else
      var m := DailyOf(records[..|records| - 1], w);
      var s := records[|records| - 1];
      if InWindow(s, w) then m[DayOf(s.timestamp) := Plus(At(m, DayOf(s.timestamp)), SaleStats(s))] else m
  }

  /** Each date of the dictionary holds the figures of exactly the window's
      sales on that date; a date without sales reads as zeros. */
  lemma {:induction false} DailyMeaning(records: seq<SalesRecord>, w: Window, day: int)
    ensures At(DailyOf(records, w), day) == StatsOn(records, w, day)
  {
    if records != [] {
      var init := records[..|records| - 1];
      var s := records[|records| - 1];
      DailyMeaning(init, w, day);
      var m := DailyOf(init, w);
      if InWindow(s, w) {
        var d := DayOf(s.timestamp);
        var m' := m[d := Plus(At(m, d), SaleStats(s))];
        assert DailyOf(records, w) == m';
        if day == d {
          assert At(m', day) == Plus(At(m, d), SaleStats(s));
        } else {
          assert At(m', day) == At(m, day);
        }
      } else {
        assert DailyOf(records, w) == m;
      }
    }
  }

  /** The accumulation loop of `get_daily_sales_trend`. */
  method CollectDays(records: seq<SalesRecord>, w: Window) returns (m: map<int, DayStats>)
    ensures m == DailyOf(records, w)
  {
    m := map[];
    var i := 0;
    while i < |records|
      invariant 0 <= i <= |records|
      invariant m == DailyOf(records[..i], w)
    {
      var s := records[i];
      assert records[..i + 1][..i] == records[..i];
      if w.start <= s.timestamp <= w.end {
        var day := DayOf(s.timestamp);
        m := m[day := Plus(At(m, day), SaleStats(s))];
      }
      i := i + 1;
    }
    assert records[..i] == records;
  }

  /** The dates of the trend: from the window's first date, one per day while
      the moment stays inside the window. */
  function DateCount(w: Window): nat {
    if w.end < w.start then 0 else (w.end - w.start) / 86400 + 1
  }

  /** The `while current_date <= end_date` loop building the date range. */
  method DateRange(w: Window) returns (dates: seq<int>)
    ensures |dates| == DateCount(w)
    ensures forall k :: 0 <= k < |dates| ==> dates[k] == DayOf(w.start) + k
  {
    dates := [];
    var current := w.start;
    while current <= w.end
      invariant current == w.start + |dates| * 86400
      invariant forall k :: 0 <= k < |dates| ==> dates[k] == DayOf(w.start) + k
      invariant w.end < w.start ==> dates == []
      invariant w.start <= w.end ==> |dates| <= (w.end - w.start) / 86400 + 1
      decreases w.end - current + 86400
    {
      assert DayOf(current) == DayOf(w.start) + |dates|;
      dates := dates + [DayOf(current)];
      current := current + 86400;
    }
  }

  /** One entry of the daily trend. */
  datatype DayEntry = DayEntry(date: int, revenue: real, transactions: int, itemsSold: int)

  function DayRow(day: int, s: DayStats): DayEntry {
    DayEntry(day, s.revenue, s.transactions, s.itemsSold)
  }

  /** The entries for `n` consecutive dates from `first`, zero-filled. */
  function TrendData(m: map<int, DayStats>, first: int, n: nat): (data: seq<DayEntry>)
    ensures |data| == n
    ensures forall k :: 0 <= k < n ==> data[k] == DayRow(first + k, At(m, first + k))
  {
    if n == 0 then [] else TrendData(m, first, n - 1) + [DayRow(first + n - 1, At(m, first + n - 1))]
  }

  function EntriesTotal(data: seq<DayEntry>): DayStats {
    if data == [] then NoDaySales
    else
      var e := data[|data| - 1];
      Plus(EntriesTotal(data[..|data| - 1]), DayStats(e.revenue, e.transactions, e.itemsSold))
  }

  /** The report of `get_daily_sales_trend`. */
  datatype Trend = Trend(
    dailyData: seq<DayEntry>,
    totalRevenue: real,
    totalTransactions: int,
    averageDailyRevenue: real)

  /** The window of the last `days` days up to `now`. */
  function LastDays(days: int, now: Timestamp): Window {
    Window(now - days * 86400, now)
  }

  /** `get_daily_sales_trend(days)`: an entry for every date of the window,
      the totals over the entries, and their average, which fails for a
      negative number of days because there are no entries then. */
  function TrendOf(records: seq<SalesRecord>, days: int, now: Timestamp): (r: Result<Trend>)
    ensures r.Ok? <==> days >= 0
    ensures r.Ok? ==> |r.value.dailyData| == days + 1
  {
    var w := LastDays(days, now);
    var data := TrendData(DailyOf(records, w), DayOf(w.start), DateCount(w));
    var total := EntriesTotal(data);
    if data == [] then Err("division by zero")
    else Ok(Trend(data, total.revenue, total.transactions, total.revenue / |data| as real))
  }

  /** Each entry holds the figures of exactly the sales on its date, and the
      dates are consecutive from the window's first one. */
  lemma TrendEntries(records: seq<SalesRecord>, days: int, now: Timestamp, k: nat)
    requires days >= 0 && k <= days
    ensures TrendOf(records, days, now).value.dailyData[k] ==
      DayRow(DayOf(now - days * 86400) + k, StatsOn(records, LastDays(days, now), DayOf(now - days * 86400) + k))
  {
    var w := LastDays(days, now);
    var m := DailyOf(records, w);
    TrendOfData(records, days, now);
    DailyMeaning(records, w, DayOf(w.start) + k);
  }

  lemma TrendOfData(records: seq<SalesRecord>, days: int, now: Timestamp)
    requires days >= 0
    ensures TrendOf(records, days, now).value.dailyData ==
      TrendData(DailyOf(records, LastDays(days, now)), DayOf(now - days * 86400), days + 1)
  {
    assert DateCount(LastDays(days, now)) == days + 1;
  }

  /** The figures of the dictionary's `n` dates from `first`, added up. */
  function SumDays(m: map<int, DayStats>, first: int, n: nat): DayStats {
    if n == 0 then NoDaySales else Plus(SumDays(m, first, n - 1), At(m, first + n - 1))
  }

  /** `x` when date `d` is one of the `n` dates from `first`, zeros otherwise. */
  function IfAmong(d: int, x: DayStats, first: int, n: nat): DayStats {
    if first <= d < first + n then x else NoDaySales
  }

  /** Adding a sale's figures to one date adds them to the sum exactly when
      the date is among those summed. */
  lemma {:induction false} SumDaysUpdate(m: map<int, DayStats>, d: int, x: DayStats, first: int, n: nat)
    ensures SumDays(m[d := Plus(At(m, d), x)], first, n) == Plus(SumDays(m, first, n), IfAmong(d, x, first, n))
  {
    if n == 0 {
      SumDaysUpdateNone(m, d, x, first);
    } else {
      SumDaysUpdate(m, d, x, first, n - 1);
      if first + n - 1 == d {
        SumDaysUpdateHere(m, d, x, first, n);
      } else {
        SumDaysUpdateElsewhere(m, d, x, first, n);
      }
    }
  }

  lemma SumDaysUpdateNone(m: map<int, DayStats>, d: int, x: DayStats, first: int)
    ensures SumDays(m[d := Plus(At(m, d), x)], first, 0) == Plus(SumDays(m, first, 0), IfAmong(d, x, first, 0))
  {
  }

  lemma SumDaysUpdateHere(m: map<int, DayStats>, d: int, x: DayStats, first: int, n: nat)
    requires n > 0 && first + n - 1 == d
    requires SumDays(m[d := Plus(At(m, d), x)], first, n - 1) == Plus(SumDays(m, first, n - 1), IfAmong(d, x, first, n - 1))
    ensures SumDays(m[d := Plus(At(m, d), x)], first, n) == Plus(SumDays(m, first, n), IfAmong(d, x, first, n))
  {
  }

  lemma SumDaysUpdateElsewhere(m: map<int, DayStats>, d: int, x: DayStats, first: int, n: nat)
    requires n > 0 && first + n - 1 != d
    requires SumDays(m[d := Plus(At(m, d), x)], first, n - 1) == Plus(SumDays(m, first, n - 1), IfAmong(d, x, first, n - 1))
    ensures SumDays(m[d := Plus(At(m, d), x)], first, n) == Plus(SumDays(m, first, n), IfAmong(d, x, first, n))
  {
  }

  lemma {:induction false} SumDaysOfNothing(first: int, n: nat)
    ensures SumDays(map[], first, n) == NoDaySales
  {
    if n > 0 {
      SumDaysOfNothing(first, n - 1);
    }
  }

  /** When every sale of the window falls on one of the dates, the dates of
      the dictionary add up to the whole window. */
  lemma {:induction false} DailyCoverWindow(records: seq<SalesRecord>, w: Window, first: int, n: nat)
    requires forall k :: 0 <= k < |records| && InWindow(records[k], w) ==>
      first <= DayOf(records[k].timestamp) < first + n
    ensures SumDays(DailyOf(records, w), first, n) == WindowStats(records, w)
  {
    if records == [] {
      SumDaysOfNothing(first, n);
    } else {
      var init := records[..|records| - 1];
      assert forall k :: 0 <= k < |init| ==> init[k] == records[k];
      DailyCoverWindow(init, w, first, n);
      DailyCoverStep(records, w, first, n);
    }
  }

  lemma DailyCoverStep(records: seq<SalesRecord>, w: Window, first: int, n: nat)
    requires records != []
    requires InWindow(records[|records| - 1], w) ==> first <= DayOf(records[|records| - 1].timestamp) < first + n
    requires SumDays(DailyOf(records[..|records| - 1], w), first, n) == WindowStats(records[..|records| - 1], w)
    ensures SumDays(DailyOf(records, w), first, n) == WindowStats(records, w)
  {
    if InWindow(records[|records| - 1], w) {
      DailyCoverIn(records, w, first, n);
    } else {
      DailyCoverOut(records, w, first, n);
    }
  }

  lemma DailyCoverIn(records: seq<SalesRecord>, w: Window, first: int, n: nat)
    requires records != [] && InWindow(records[|records| - 1], w)
    requires first <= DayOf(records[|records| - 1].timestamp) < first + n
    requires SumDays(DailyOf(records[..|records| - 1], w), first, n) == WindowStats(records[..|records| - 1], w)
    ensures SumDays(DailyOf(records, w), first, n) == WindowStats(records, w)
  {
    var s := records[|records| - 1];
    var init := records[..|records| - 1];
    DailyOfIn(records, w);
    WindowStatsIn(records, w);
    AddDayInside(DailyOf(init, w), DayOf(s.timestamp), SaleStats(s), first, n, WindowStats(init, w));
  }

  /** Adding a sale to a listed day adds it to the sum over the listed days. */
  lemma AddDayInside(m: map<int, DayStats>, d: int, x: DayStats, first: int, n: nat, before: DayStats)
    requires first <= d < first + n && SumDays(m, first, n) == before
    ensures SumDays(m[d := Plus(At(m, d), x)], first, n) == Plus(before, x)
  {
    SumDaysUpdate(m, d, x, first, n);
    assert IfAmong(d, x, first, n) == x;
  }

  lemma DailyCoverOut(records: seq<SalesRecord>, w: Window, first: int, n: nat)
    requires records != [] && !InWindow(records[|records| - 1], w)
    requires SumDays(DailyOf(records[..|records| - 1], w), first, n) == WindowStats(records[..|records| - 1], w)
    ensures SumDays(DailyOf(records, w), first, n) == WindowStats(records, w)
  {
    DailyOfOut(records, w);
    WindowStatsOut(records, w);
  }

  lemma DailyOfOut(records: seq<SalesRecord>, w: Window)
    requires records != [] && !InWindow(records[|records| - 1], w)
    ensures DailyOf(records, w) == DailyOf(records[..|records| - 1], w)
  {
  }

  lemma WindowStatsOut(records: seq<SalesRecord>, w: Window)
    requires records != [] && !InWindow(records[|records| - 1], w)
    ensures WindowStats(records, w) == WindowStats(records[..|records| - 1], w)
  {
  }

  lemma DailyOfIn(records: seq<SalesRecord>, w: Window)
    requires records != [] && InWindow(records[|records| - 1], w)
    ensures var m := DailyOf(records[..|records| - 1], w);
      var d := DayOf(records[|records| - 1].timestamp);
      DailyOf(records, w) == m[d := Plus(At(m, d), SaleStats(records[|records| - 1]))]
  {
  }

  lemma WindowStatsIn(records: seq<SalesRecord>, w: Window)
    requires records != [] && InWindow(records[|records| - 1], w)
    ensures WindowStats(records, w) == Plus(WindowStats(records[..|records| - 1], w), SaleStats(records[|records| - 1]))
  {
  }

  /** The entries add up to the dictionary's dates. */
  lemma {:induction false} TrendDataTotal(m: map<int, DayStats>, first: int, n: nat)
    ensures EntriesTotal(TrendData(m, first, n)) == SumDays(m, first, n)
  {
    if n > 0 {
      TrendDataTotal(m, first, n - 1);
      var init := TrendData(m, first, n - 1);
      var last := DayRow(first + n - 1, At(m, first + n - 1));
      assert TrendData(m, first, n) == init + [last];
      assert (init + [last])[..n - 1] == init;
    }
  }

  /** The trend's totals are those of all the sales in its window: no sale of
      the window falls outside the listed dates. */
  lemma TrendTotals(records: seq<SalesRecord>, days: int, now: Timestamp)
    requires days >= 0
    ensures var w := LastDays(days, now);
      TrendOf(records, days, now).value.totalRevenue == SumTotals(InRange(records, w))
      && TrendOf(records, days, now).value.totalTransactions == |InRange(records, w)|
  {
    var w := LastDays(days, now);
    var first := DayOf(w.start);
    var n := DateCount(w);
    assert n == days + 1;
    forall k | 0 <= k < |records| && InWindow(records[k], w)
      ensures first <= DayOf(records[k].timestamp) < first + n
    {
      DayOfMonotone(w.start, records[k].timestamp);
      DayOfMonotone(records[k].timestamp, w.end);
      assert DayOf(w.end) == first + days;
    }
    DailyCoverWindow(records, w, first, n);
    TrendDataTotal(DailyOf(records, w), first, n);
    WindowStatsSummary(records, w);
  }

  lemma DayOfMonotone(a: int, b: int)
    requires a <= b
    ensures DayOf(a) <= DayOf(b)
  {
  }

  method BuildTrend(m: map<int, DayStats>, dates: seq<int>) returns (data: seq<DayEntry>)
    requires |dates| > 0 ==> forall k :: 0 <= k < |dates| ==> dates[k] == dates[0] + k
    ensures |dates| > 0 ==> data == TrendData(m, dates[0], |dates|)
    ensures |dates| == 0 ==> data == []
  {
    data := [];
    var i := 0;
    while i < |dates|
      invariant 0 <= i <= |dates|
      invariant |dates| > 0 ==> data == TrendData(m, dates[0], i)
      invariant |dates| == 0 ==> data == []
    {
      var sales := At(m, dates[i]);
      data := data + [DayRow(dates[i], sales)];
      i := i + 1;
    }
  }

  // ---------------------------------------------------------------------------
  // Hourly pattern

  datatype HourStats = HourStats(revenue: real, transactions: nat)

  function AtHour(m: map<int, HourStats>, hour: int): HourStats {
    if hour in m then m[hour] else HourStats(0.0, 0)
  }

  /** The `hourly_sales` dictionary of the filtered sales. */
  function HourlyOf(sales: seq<SalesRecord>): map<int, HourStats> {
    if sales == [] then map[]
    else
      var m := HourlyOf(sales[..|sales| - 1]);
      var s := sales[|sales| - 1];
      var h := AtHour(m, HourOf(s.timestamp));
      m[HourOf(s.timestamp) := HourStats(h.revenue + s.total, h.transactions + 1)]
  }

  /** The sales of one hour of the day, in order. */
  function InHour(sales: seq<SalesRecord>, hour: int): seq<SalesRecord> {
    if sales == [] then []
    else
      var s := sales[|sales| - 1];
      InHour(sales[..|sales| - 1], hour) + (if HourOf(s.timestamp) == hour then [s] else [])
  }

  /** Each hour holds the revenue and the number of exactly that hour's sales. */
  lemma {:induction false} HourlyMeaning(sales: seq<SalesRecord>, hour: int)
    ensures AtHour(HourlyOf(sales), hour) == HourStats(SumTotals(InHour(sales, hour)), |InHour(sales, hour)|)
  {
    if sales != [] {
      var init := sales[..|sales| - 1];
      var s := sales[|sales| - 1];
      HourlyMeaning(init, hour);
      var named := InHour(init, hour);
      if HourOf(s.timestamp) == hour {
        assert (named + [s])[..|named|] == named;
      } else {
        assert named + [] == named;
      }
    }
  }

  method CollectHours(sales: seq<SalesRecord>) returns (m: map<int, HourStats>)
    ensures m == HourlyOf(sales)
  {
    m := map[];
    var i := 0;
    while i < |sales|
      invariant 0 <= i <= |sales|
      invariant m == HourlyOf(sales[..i])
    {
      assert sales[..i + 1][..i] == sales[..i];
      var hour := HourOf(sales[i].timestamp);
      var h := AtHour(m, hour);
      m := m[hour := HourStats(h.revenue + sales[i].total, h.transactions + 1)];
      i := i + 1;
    }
    assert sales[..i] == sales;
  }

  datatype HourEntry = HourEntry(hour: int, revenue: real, transactions: nat, averageTransaction: real)

  function HourRow(hour: int, s: HourStats): HourEntry {
    HourEntry(hour, s.revenue, s.transactions, if s.transactions > 0 then s.revenue / s.transactions as real else 0.0)
  }

  /** `max(xs, key=revenue)`: the first entry of greatest revenue. */
  function PeakIndex(xs: seq<HourEntry>): (i: nat)
    requires xs != []
    ensures i < |xs|
    ensures forall j :: 0 <= j < |xs| ==> xs[j].revenue <= xs[i].revenue
    ensures forall j :: 0 <= j < i ==> xs[j].revenue < xs[i].revenue
  {
    if |xs| == 1 then 0
    else
      var i := PeakIndex(xs[..|xs| - 1]);
      if xs[|xs| - 1].revenue > xs[i].revenue then |xs| - 1 else i
  }

  /** `min(xs, key=revenue)`: the first entry of least revenue. */
  function QuietIndex(xs: seq<HourEntry>): (i: nat)
    requires xs != []
    ensures i < |xs|
    ensures forall j :: 0 <= j < |xs| ==> xs[i].revenue <= xs[j].revenue
    ensures forall j :: 0 <= j < i ==> xs[i].revenue < xs[j].revenue
  {
    if |xs| == 1 then 0
    else
      var i := QuietIndex(xs[..|xs| - 1]);
      if xs[|xs| - 1].revenue < xs[i].revenue then |xs| - 1 else i
  }

  /** The report of `get_hourly_sales_pattern`. */
  datatype HourlyPattern = HourlyPattern(hourlyData: seq<HourEntry>, peakHour: HourEntry, quietHour: HourEntry)

  /** `get_hourly_sales_pattern(days)`: 24 entries, one per hour in order,
      the first of greatest and the first of least revenue. */
  function PatternOf(records: seq<SalesRecord>, days: int, now: Timestamp): (r: HourlyPattern)
    ensures |r.hourlyData| == 24
    ensures forall h :: 0 <= h < 24 ==> r.hourlyData[h].hour == h
    ensures r.peakHour in r.hourlyData && r.quietHour in r.hourlyData
    ensures forall e :: e in r.hourlyData ==> r.quietHour.revenue <= e.revenue <= r.peakHour.revenue
  {
    var m := HourlyOf(InRange(records, LastDays(days, now)));
    var data := seq(24, h requires 0 <= h < 24 => HourRow(h, AtHour(m, h)));
    HourlyPattern(data, data[PeakIndex(data)], data[QuietIndex(data)])
  }

  /** Each hour's entry carries the revenue and number of exactly the window's
      sales in that hour; an hour without sales averages 0. */
  lemma PatternEntries(records: seq<SalesRecord>, days: int, now: Timestamp, h: nat)
    requires h < 24
    ensures var sales := InHour(InRange(records, LastDays(days, now)), h);
      var e := PatternOf(records, days, now).hourlyData[h];
      e.revenue == SumTotals(sales) && e.transactions == |sales|
      && (sales == [] ==> e.averageTransaction == 0.0)
  {
    HourlyMeaning(InRange(records, LastDays(days, now)), h);
  }

  method BuildHours(m: map<int, HourStats>) returns (data: seq<HourEntry>)
    ensures data == seq(24, h requires 0 <= h < 24 => HourRow(h, AtHour(m, h)))
  {
    data := [];
    var hour := 0;
    while hour < 24
      invariant 0 <= hour <= 24
      invariant |data| == hour
      invariant forall h :: 0 <= h < hour ==> data[h] == HourRow(h, AtHour(m, h))
    {
      data := data + [HourRow(hour, AtHour(m, hour))];
      hour := hour + 1;
    }
  }

  // ---------------------------------------------------------------------------
  // The combined report

  datatype Report = Report(
    reportType: string,
    generatedAt: Timestamp,
    dateRange: Window,
    summary: Summary,
    productPerformance: Option<ProductReport>,
    categoryPerformance: Option<CategoryReport>,
    dailyTrend: Option<Trend>,
    hourlyPattern: Option<HourlyPattern>)

  predicate Comprehensive(reportType: string) {
    reportType == "comprehensive"
  }

  predicate WantsProducts(reportType: string) {
    reportType in ["comprehensive", "product"]
  }

  predicate WantsCategories(reportType: string) {
    reportType in ["comprehensive", "category"]
  }

  /** The report before the trend and the hourly pattern are added. */
  function BaseReport(records: seq<SalesRecord>, reportType: string, w: Window, now: Timestamp): Report {
    var items := ItemsOf(InRange(records, w));
    Report(reportType, now, w, SalesSummary(records, w),
           if WantsProducts(reportType) then Some(ProductReportOf(ProductStatsOf(items))) else None,
           if WantsCategories(reportType) then Some(CategoryReportOf(CategoryStatsOf(items))) else None,
           None, None)
  }

  /** `generate_sales_report`: the summary always; product figures for
      "comprehensive" and "product"; category figures for "comprehensive" and
      "category"; for "comprehensive" also the daily trend and hourly pattern
      over the window's length in whole days, counted back from `now`. */
  function ReportOf(records: seq<SalesRecord>, reportType: string, w: Window, now: Timestamp): Result<Report> {
    var base := BaseReport(records, reportType, w, now);
    if !Comprehensive(reportType) then Ok(base)
    else
      var days := WholeDays(w);
      WithTimeSections(base, TrendOf(records, days, now), PatternOf(records, days, now))
  }

  /** The window's length in whole days, rounded down. */
  function WholeDays(w: Window): int {
    (w.end - w.start) / 86400
  }

  /** The comprehensive report: the failure of the trend, or the base with
      the trend and the hourly pattern added. */
  function WithTimeSections(base: Report, trend: Result<Trend>, pattern: HourlyPattern): Result<Report> {
    if trend.Err? then Err(trend.message)
    else Ok(base.(dailyTrend := Some(trend.value), hourlyPattern := Some(pattern)))
  }

  lemma ReportOfBase(records: seq<SalesRecord>, reportType: string, w: Window, now: Timestamp)
    requires !Comprehensive(reportType)
    ensures ReportOf(records, reportType, w, now) == Ok(BaseReport(records, reportType, w, now))
  {
  }

  lemma ReportOfComprehensive(records: seq<SalesRecord>, reportType: string, w: Window, now: Timestamp)
    requires Comprehensive(reportType)
    ensures var days := WholeDays(w);
      ReportOf(records, reportType, w, now) ==
      WithTimeSections(BaseReport(records, reportType, w, now), TrendOf(records, days, now), PatternOf(records, days, now))
  {
  }

  /** Which sections a report has, and that only a comprehensive report over
      a window that ends before it starts fails. */
  lemma ReportSections(records: seq<SalesRecord>, reportType: string, w: Window, now: Timestamp)
    ensures ReportOf(records, reportType, w, now).Err? <==> reportType == "comprehensive" && w.end < w.start
    ensures var r := ReportOf(records, reportType, w, now);
      r.Ok? ==>
        r.value.summary == SalesSummary(records, w)
        && (r.value.productPerformance.Some? <==> reportType == "comprehensive" || reportType == "product")
        && (r.value.categoryPerformance.Some? <==> reportType == "comprehensive" || reportType == "category")
        && (r.value.dailyTrend.Some? <==> reportType == "comprehensive")
        && (r.value.hourlyPattern.Some? <==> reportType == "comprehensive")
  {
    var base := BaseReport(records, reportType, w, now);
    BaseSectionsIff(records, reportType, w, now);
    if Comprehensive(reportType) {
      var days := WholeDays(w);
      ReportOfComprehensive(records, reportType, w, now);
      WholeDaysNegative(w);
      TrendFails(records, days, now);
    } else {
      ReportOfBase(records, reportType, w, now);
    }
  }

  /** The base report has the summary, and the product and category sections
      exactly for the types that ask for them. */
  lemma BaseSectionsIff(records: seq<SalesRecord>, reportType: string, w: Window, now: Timestamp)
    ensures var base := BaseReport(records, reportType, w, now);
      base.summary == SalesSummary(records, w)
      && (base.productPerformance.Some? <==> reportType == "comprehensive" || reportType == "product")
      && (base.categoryPerformance.Some? <==> reportType == "comprehensive" || reportType == "category")
      && base.dailyTrend.None? && base.hourlyPattern.None?
  {
  }

  /** A window's length in whole days is negative exactly when it ends before it starts. */
  lemma WholeDaysNegative(w: Window)
    ensures WholeDays(w) < 0 <==> w.end < w.start
  {
  }

  lemma TrendFails(records: seq<SalesRecord>, days: int, now: Timestamp)
    ensures TrendOf(records, days, now).Err? <==> days < 0
  {
  }

  /** A row of the flattened report. */
  datatype FlatRow =
    | MetricRow(section: string, metric: string, value: Value)
    | ProductFlatRow(section: string, productName: string, quantitySold: int, revenue: real, transactions: nat)

  function ProductFlat(e: ProductEntry): FlatRow {
    ProductFlatRow("product_performance", e.name, e.quantitySold, e.revenue, e.transactions)
  }

  /** `_flatten_report_data`: the two summary metrics, then one row per
      product of the product figures (none when the report has none). */
  method FlattenReport(report: Report) returns (rows: seq<FlatRow>)
    ensures var products := if report.productPerformance.Some? then report.productPerformance.value.products else [];
      |rows| == 2 + |products|
      && rows[0] == MetricRow("summary", "total_revenue", VFloat(report.summary.totalRevenue))
      && rows[1] == MetricRow("summary", "total_transactions", VInt(report.summary.totalTransactions))
      && forall i :: 0 <= i < |products| ==> rows[2 + i] == ProductFlat(products[i])
  {
    rows := [MetricRow("summary", "total_revenue", VFloat(report.summary.totalRevenue)),
             MetricRow("summary", "total_transactions", VInt(report.summary.totalTransactions))];
    var products := if report.productPerformance.Some? then report.productPerformance.value.products else [];
    var i := 0;
    while i < |products|
      invariant 0 <= i <= |products|
      invariant |rows| == 2 + i
      invariant rows[0] == MetricRow("summary", "total_revenue", VFloat(report.summary.totalRevenue))
      invariant rows[1] == MetricRow("summary", "total_transactions", VInt(report.summary.totalTransactions))
      invariant forall k :: 0 <= k < i ==> rows[2 + k] == ProductFlat(products[k])
    {
      rows := rows + [ProductFlat(products[i])];
      i := i + 1;
    }
  }

  // ---------------------------------------------------------------------------
  // The sales history

  class SalesAnalytics {
    var salesRecords: seq<SalesRecord>

    constructor ()
      ensures salesRecords == []
    {
      salesRecords := [];
    }

    /** `add_sale`: the record goes last; earlier records are unchanged. */
    method AddSale(sale: SalesRecord)
      modifies this
      ensures salesRecords == old(salesRecords) + [sale]
    {
      salesRecords := salesRecords + [sale];
    }

    /** `get_product_performance` over the window (the last 30 days by default). */
    method GetProductPerformance(start: Option<Timestamp>, end: Option<Timestamp>, now: Timestamp)
      returns (r: ProductReport)
      ensures r == ProductReportOf(ProductStatsOf(ItemsOf(InRange(salesRecords, DefaultWindow(start, end, now)))))
    {
      var sales := InRange(salesRecords, DefaultWindow(start, end, now));
      var stats := GroupItems(sales, ProductName, AddProductItem, NoProductSales);
      r := ProductReportOf(stats);
    }

    /** `get_category_performance` over the window (the last 30 days by default). */
    method GetCategoryPerformance(start: Option<Timestamp>, end: Option<Timestamp>, now: Timestamp)
      returns (r: CategoryReport)
      ensures r == CategoryReportOf(CategoryStatsOf(ItemsOf(InRange(salesRecords, DefaultWindow(start, end, now)))))
    {
      var sales := InRange(salesRecords, DefaultWindow(start, end, now));
      var stats := GroupItems(sales, CategoryName, AddCategoryItem, NoCategorySales);
      r := CategoryReportOf(stats);
    }

    /** `get_daily_sales_trend(days)` */
    method GetDailySalesTrend(days: int, now: Timestamp) returns (r: Result<Trend>)
      ensures r == TrendOf(salesRecords, days, now)
    {
      var w := LastDays(days, now);
      var dates := DateRange(w);
      var m := CollectDays(salesRecords, w);
      var data := BuildTrend(m, dates);
      if data == [] {
        return Err("division by zero");
      }
      var total := EntriesTotal(data);
      r := Ok(Trend(data, total.revenue, total.transactions, total.revenue / |data| as real));
    }

    /** `get_hourly_sales_pattern(days)` */
    method GetHourlySalesPattern(days: int, now: Timestamp) returns (r: HourlyPattern)
      ensures r == PatternOf(salesRecords, days, now)
    {
      var sales := InRange(salesRecords, LastDays(days, now));
      var m := CollectHours(sales);
      var data := BuildHours(m);
      r := HourlyPattern(data, data[PeakIndex(data)], data[QuietIndex(data)]);
    }

    /** `generate_sales_report` over the window (the last 30 days by default). */
    method GenerateSalesReport(reportType: string, start: Option<Timestamp>, end: Option<Timestamp>, now: Timestamp)
      returns (r: Result<Report>)
      ensures r == ReportOf(salesRecords, reportType, DefaultWindow(start, end, now), now)
    {
      var w := DefaultWindow(start, end, now);
      var report := BaseSections(reportType, w, now);
      if !Comprehensive(reportType) {
        ReportOfBase(salesRecords, reportType, w, now);
        return Ok(report);
      }
      var days := WholeDays(w);
      ReportOfComprehensive(salesRecords, reportType, w, now);
      var trend := GetDailySalesTrend(days, now);
      if trend.Err? {
        return Err(trend.message);
      }
      var pattern := GetHourlySalesPattern(days, now);
      r := Ok(report.(dailyTrend := Some(trend.value), hourlyPattern := Some(pattern)));
    }

    /** The summary, and the product and category sections the type asks for. */
    method BaseSections(reportType: string, w: Window, now: Timestamp) returns (report: Report)
      ensures report == BaseReport(salesRecords, reportType, w, now)
    {
      var products: Option<ProductReport> := None;
      if WantsProducts(reportType) {
        var p := GetProductPerformance(Some(w.start), Some(w.end), now);
        products := Some(p);
      }
      var categories: Option<CategoryReport> := None;
      if WantsCategories(reportType) {
        var c := GetCategoryPerformance(Some(w.start), Some(w.end), now);
        categories := Some(c);
      }
      report := Report(reportType, now, w, SalesSummary(salesRecords, w), products, categories, None, None);
    }
  }
}
