/**
 * The aggregations of `utils/data_processor.py`. Each aggregator is a method
 * that runs the accumulator loop (`Grouping.Accumulate`) and then its own
 * second step (pick the maximum, sort, filter, slice, average); each method
 * is proved equal to a specification function, and what the functions
 * promise is proved about those specification functions.
 */
module DataProcessor {
  import opened Collections
  import opened Records
  import opened Grouping

  // ---------------------------------------------------------------------------
  // calculate_total_revenue

  method CalculateTotalRevenue(ts: seq<Transaction>) returns (total: real)
    ensures total == TotalAmount(ts)
  {
    total := 0.0;
    for i := 0 to |ts|
      invariant total == TotalAmount(ts[..i])
    {
      assert ts[..i + 1] == ts[..i] + [ts[i]];
      TotalsSnoc(ts[..i], ts[i], ByDate);
      total := total + Amount(ts[i]);
    }
    assert ts[..|ts|] == ts;
  }

  // ---------------------------------------------------------------------------
  // find_peak_sales_day

  /** `(None, 0.0, 0)` is `NoSales`. */
  datatype PeakDay = NoSales | PeakDay(date: string, revenue: real, transactionCount: nat)

  /**
   * The entry `max(stats.items(), key=...)` picks: the largest total, and
   * among equal totals the first, because `max` replaces its candidate only
   * by a strictly larger one.
   */
  function MaxIndex(gs: seq<Group>): (j: nat)
    requires gs != []
    ensures j < |gs|
    ensures forall i :: 0 <= i < |gs| ==> gs[i].amount <= gs[j].amount
    ensures forall i :: 0 <= i < j ==> gs[i].amount < gs[j].amount
  {
    if |gs| == 1 then 0
    else
      var b := MaxIndex(gs[..|gs| - 1]);
      if gs[|gs| - 1].amount > gs[b].amount then |gs| - 1 else b
  }

  /** One more entry either becomes the maximum or leaves it where it was. */
  lemma MaxIndexStep(gs: seq<Group>, i: nat)
    requires 0 < i < |gs|
    ensures MaxIndex(gs[..i + 1])
            == if gs[i].amount > gs[MaxIndex(gs[..i])].amount then i else MaxIndex(gs[..i])
  {
    assert gs[..i + 1][..i] == gs[..i];
  }

  /** The peak of the date dictionary: there is none exactly when no date was seen, and the peak day has a transaction. */
  function PeakOf(ts: seq<Transaction>): (p: PeakDay)
    ensures p.NoSales? <==> Keys(ts, ByDate) == []
    ensures p.PeakDay? ==> p.date in Keys(ts, ByDate) && p.transactionCount >= 1
  {
    var gs := Rollup(ts, ByDate);
    if gs == [] then NoSales
    else
      var g := gs[MaxIndex(gs)];
      PeakDay(g.key, g.amount, g.count)
  }

  method FindPeakSalesDay(ts: seq<Transaction>) returns (p: PeakDay)
    ensures p == PeakOf(ts)
  {
    var groups, _ := Accumulate(ts, ByDate);
    if groups == [] {
      return NoSales;
    }
    var best := 0;
    for i := 1 to |groups|
      invariant best == MaxIndex(groups[..i])
    {
      MaxIndexStep(groups, i);
      if groups[i].amount > groups[best].amount {
        best := i;
      }
    }
    assert groups[..|groups|] == groups;
    p := PeakDay(groups[best].key, groups[best].amount, groups[best].count);
  }

  /** There is no peak day exactly when no transaction has a non-blank date. */
  lemma PeakNone(ts: seq<Transaction>)
    ensures PeakOf(ts) == NoSales <==> forall i :: 0 <= i < |ts| ==> KeyOf(ts[i], ByDate) == ""
  {
    NoKeys(ts, ByDate);
  }

  /**
   * The peak day is a date of the input with its own revenue and count; no
   * date has more revenue, and every date seen before it has strictly less.
   */
  lemma PeakIsFirstMaximum(ts: seq<Transaction>)
    ensures var p := PeakOf(ts);
            var ks := Keys(ts, ByDate);
            p.PeakDay? ==>
              && p.date in ks
              && p.revenue == SumAmount(ts, ByDate, p.date)
              && p.transactionCount == CountOf(ts, ByDate, p.date) >= 1
              && (forall k :: k in ks ==> SumAmount(ts, ByDate, k) <= p.revenue)
              && (forall i, j :: 0 <= i < j < |ks| && ks[j] == p.date ==> SumAmount(ts, ByDate, ks[i]) < p.revenue)
  {
    var p := PeakOf(ts);
    var ks := Keys(ts, ByDate);
    var gs := Rollup(ts, ByDate);
    if p.PeakDay? {
      var b := MaxIndex(gs);
      assert p.date == ks[b];
      KeysCounted(ts, ByDate, p.date);
      forall k | k in ks
        ensures SumAmount(ts, ByDate, k) <= p.revenue
      {
        var i :| 0 <= i < |ks| && ks[i] == k;
        assert gs[i].amount == SumAmount(ts, ByDate, k);
      }
      KeysDistinct(ts, ByDate);
      forall i, j | 0 <= i < j < |ks| && ks[j] == p.date
        ensures SumAmount(ts, ByDate, ks[i]) < p.revenue
      {
        assert j == b;
        assert gs[i].amount == SumAmount(ts, ByDate, ks[i]);
      }
    }
  }

  // ---------------------------------------------------------------------------
  // daily_sales_trend

  datatype DayTrend = DayTrend(date: string, revenue: real, transactionCount: nat, uniqueCustomers: nat)

  /** One entry of the result: the set of customers becomes its size. */
  function DayTrendOf(g: Group): DayTrend {
    DayTrend(g.key, g.amount, g.count, |g.customers|)
  }

  /** The per-date entries in the order of `sorted(date_stats.keys())`. */
  function DailyTrend(ts: seq<Transaction>): (r: seq<DayTrend>)
    ensures |r| == |Keys(ts, ByDate)|
  {
    var dates := SortStrings(Keys(ts, ByDate));
    seq(|dates|, i requires 0 <= i < |dates| => DayTrendOf(GroupOf(ts, ByDate, dates[i])))
  }

  method DailySalesTrend(ts: seq<Transaction>) returns (rows: seq<DayTrend>)
    ensures rows == DailyTrend(ts)
  {
    var groups, _ := Accumulate(ts, ByDate);
    ghost var ks := Keys(ts, ByDate);
    assert GroupKeys(groups) == ks;
    var dates := SortStrings(GroupKeys(groups));
    KeysDistinct(ts, ByDate);
    SortStringsAscending(ks);
    forall m | 0 <= m < |dates|
      ensures FindGroup(groups, dates[m]) < |groups|
      ensures groups[FindGroup(groups, dates[m])] == GroupOf(ts, ByDate, dates[m])
    {
      assert dates[m] in ks;
      FindListedKey(ts, ByDate, dates[m]);
    }
    rows := TrendRows(groups, dates);
  }

  /** The loop `for date in sorted(...)` that turns each entry into its result entry. */
  method TrendRows(groups: seq<Group>, dates: seq<string>) returns (rows: seq<DayTrend>)
    requires forall m :: 0 <= m < |dates| ==> FindGroup(groups, dates[m]) < |groups|
    ensures |rows| == |dates|
    ensures forall m :: 0 <= m < |dates| ==> rows[m] == DayTrendOf(groups[FindGroup(groups, dates[m])])
  {
    rows := [];
    for i := 0 to |dates|
      invariant |rows| == i
      invariant forall m :: 0 <= m < i ==> rows[m] == DayTrendOf(groups[FindGroup(groups, dates[m])])
    {
      var g := groups[FindGroup(groups, dates[i])];
      rows := rows + [DayTrendOf(g)];
    }
  }

  /** The dates are strictly ascending and are exactly the distinct non-blank dates of the input. */
  lemma DailyTrendDates(ts: seq<Transaction>)
    ensures var r := DailyTrend(ts);
            && |r| == |Keys(ts, ByDate)|
            && (forall i, j :: 0 <= i < j < |r| ==> StrLess(r[i].date, r[j].date))
            && (forall k :: (exists i :: 0 <= i < |r| && r[i].date == k) <==> k in Keys(ts, ByDate))
  {
    var ks := Keys(ts, ByDate);
    KeysDistinct(ts, ByDate);
    SortStringsAscending(ks);
    forall k
      ensures (exists i :: 0 <= i < |DailyTrend(ts)| && DailyTrend(ts)[i].date == k) <==> k in ks
    {
      DailyTrendHasDate(ts, k);
    }
  }

  lemma DailyTrendHasDate(ts: seq<Transaction>, k: string)
    requires k in SortStrings(Keys(ts, ByDate)) <==> k in Keys(ts, ByDate)
    ensures (exists i :: 0 <= i < |DailyTrend(ts)| && DailyTrend(ts)[i].date == k) <==> k in Keys(ts, ByDate)
  {
    var dates := SortStrings(Keys(ts, ByDate));
    var r := DailyTrend(ts);
    forall i | 0 <= i < |r|
      ensures r[i].date == dates[i]
    {
      assert r[i] == DayTrendOf(GroupOf(ts, ByDate, dates[i]));
    }
    DatesListed(r, dates, k);
  }

  /** A table whose i-th date is `dates[i]` lists a date exactly when `dates` holds it. */
  lemma DatesListed(r: seq<DayTrend>, dates: seq<string>, k: string)
    requires |r| == |dates| && forall i :: 0 <= i < |r| ==> r[i].date == dates[i]
    ensures (exists i :: 0 <= i < |r| && r[i].date == k) <==> k in dates
  {
    if k in dates {
      var i :| 0 <= i < |dates| && dates[i] == k;
      assert r[i].date == k;
    }
  }

  /** Every day has at least one transaction and no more distinct customers than transactions. */
  lemma DailyTrendCounts(ts: seq<Transaction>)
    ensures var r := DailyTrend(ts);
            forall i :: 0 <= i < |r| ==>
              && r[i].revenue == SumAmount(ts, ByDate, r[i].date)
              && r[i].transactionCount == CountOf(ts, ByDate, r[i].date)
              && 1 <= r[i].transactionCount
              && r[i].uniqueCustomers <= r[i].transactionCount
  {
    var r := DailyTrend(ts);
    var ks := Keys(ts, ByDate);
    var dates := SortStrings(ks);
    KeysDistinct(ts, ByDate);
    SortStringsAscending(ks);
    forall i | 0 <= i < |r|
      ensures && r[i].revenue == SumAmount(ts, ByDate, r[i].date)
              && r[i].transactionCount == CountOf(ts, ByDate, r[i].date)
              && 1 <= r[i].transactionCount
              && r[i].uniqueCustomers <= r[i].transactionCount
    {
      var d := dates[i];
      assert r[i] == DayTrendOf(GroupOf(ts, ByDate, d));
      assert d in ks;
      KeysCounted(ts, ByDate, d);
      CustomersAtMostCount(ts, ByDate, d);
    }
  }

  // ---------------------------------------------------------------------------
  // region_wise_sales_analysis

  datatype RegionTotal = RegionTotal(region: string, totalRevenue: real, transactionCount: nat)

  function RegionTotalOf(g: Group): RegionTotal {
    RegionTotal(g.key, g.amount, g.count)
  }

  /** The region dictionary, unsorted: regions in the order they are first seen. */
  function RegionTotals(ts: seq<Transaction>): seq<RegionTotal> {
    var gs := Rollup(ts, ByRegion);
    seq(|gs|, i requires 0 <= i < |gs| => RegionTotalOf(gs[i]))
  }

  method RegionWiseSalesAnalysis(ts: seq<Transaction>) returns (stats: seq<RegionTotal>)
    ensures stats == RegionTotals(ts)
  {
    var groups, _ := Accumulate(ts, ByRegion);
    stats := seq(|groups|, i requires 0 <= i < |groups| => RegionTotalOf(groups[i]));
  }

  // ---------------------------------------------------------------------------
  // region_wise_sales

  datatype RegionShare = RegionShare(region: string, totalSales: real, transactionCount: nat, percentage: real)

  function TotalSales(s: RegionShare): real {
    s.totalSales
  }

  function PercentageOf(s: RegionShare): real {
    s.percentage
  }

  /** The share of `x` in `total`, in percent, and 0.0 when the total is not positive (before `round(…, 2)`). */
  function Percentage(x: real, total: real): real {
    if total > 0.0 then x / total * 100.0 else 0.0
  }

  function ShareOf(g: Group, total: real): RegionShare {
    RegionShare(g.key, g.amount, g.count, Percentage(g.amount, total))
  }

  /** The dictionary after the second pass, which adds `percentage` to every entry. */
  function SharesOf(gs: seq<Group>, total: real): seq<RegionShare> {
    seq(|gs|, i requires 0 <= i < |gs| => ShareOf(gs[i], total))
  }

  /** The result: the entries sorted by total sales, largest first, stably; one per region. */
  function RegionSales(ts: seq<Transaction>): (r: seq<RegionShare>)
    ensures |r| == |Keys(ts, ByRegion)|
  {
    SortBy(SharesOf(Rollup(ts, ByRegion), KeyedTotal(ts, ByRegion)), TotalSales, true)
  }

  method RegionWiseSales(ts: seq<Transaction>) returns (rows: seq<RegionShare>)
    ensures rows == RegionSales(ts)
  {
    var groups, totalAllSales := Accumulate(ts, ByRegion);
    var shares: seq<RegionShare> := [];
    for i := 0 to |groups|
      invariant |shares| == i
      invariant forall m :: 0 <= m < i ==> shares[m] == ShareOf(groups[m], totalAllSales)
    {
      var g := groups[i];
      var percentage := if totalAllSales > 0.0 then g.amount / totalAllSales * 100.0 else 0.0;
      shares := shares + [RegionShare(g.key, g.amount, g.count, percentage)];
    }
    assert shares == SharesOf(groups, totalAllSales);
    rows := SortBy(shares, TotalSales, true);
  }

  lemma {:induction false} SharesSums(gs: seq<Group>, total: real)
    ensures Sum(SharesOf(gs, total), TotalSales) == Sum(gs, GroupAmount)
    ensures total > 0.0 ==> Sum(SharesOf(gs, total), PercentageOf) == Sum(gs, GroupAmount) / total * 100.0
  {
    if gs != [] {
      SharesSums(gs[1..], total);
      assert SharesOf(gs, total)[1..] == SharesOf(gs[1..], total);
    }
  }

  /**
   * The regions are ordered by non-increasing total sales, regions with equal
   * sales stay in first-seen order, and no region is lost or added.
   */
  lemma RegionSalesOrdered(ts: seq<Transaction>)
    ensures var shares := SharesOf(Rollup(ts, ByRegion), KeyedTotal(ts, ByRegion));
            && SortedBy(RegionSales(ts), TotalSales, true)
            && multiset(RegionSales(ts)) == multiset(shares)
            && forall v :: WithScore(RegionSales(ts), TotalSales, v) == WithScore(shares, TotalSales, v)
  {
    var shares := SharesOf(Rollup(ts, ByRegion), KeyedTotal(ts, ByRegion));
    SortBySorted(shares, TotalSales, true);
    forall v
      ensures WithScore(RegionSales(ts), TotalSales, v) == WithScore(shares, TotalSales, v)
    {
      SortByStable(shares, TotalSales, true, v);
    }
  }

  /** The regional totals add up to the revenue of the transactions that have a region. */
  lemma RegionSalesSum(ts: seq<Transaction>)
    ensures Sum(RegionSales(ts), TotalSales) == KeyedTotal(ts, ByRegion)
  {
    var gs := Rollup(ts, ByRegion);
    var total := KeyedTotal(ts, ByRegion);
    RollupSum(ts, ByRegion);
    SharesSums(gs, total);
    SumSortBy(SharesOf(gs, total), TotalSales, true, TotalSales);
  }

  /** When the total is positive the percentages add up to 100. */
  lemma RegionPercentagesSum(ts: seq<Transaction>)
    requires KeyedTotal(ts, ByRegion) > 0.0
    ensures Sum(RegionSales(ts), PercentageOf) == 100.0
  {
    RollupSum(ts, ByRegion);
    PercentagesOfWhole(Rollup(ts, ByRegion), KeyedTotal(ts, ByRegion));
  }

  lemma PercentagesOfWhole(gs: seq<Group>, total: real)
    requires Sum(gs, GroupAmount) == total > 0.0
    ensures Sum(SortBy(SharesOf(gs, total), TotalSales, true), PercentageOf) == 100.0
  {
    var shares := SharesOf(gs, total);
    SharesSums(gs, total);
    assert total / total == 1.0;
    assert Sum(shares, PercentageOf) == 100.0;
    SumSortBy(shares, TotalSales, true, PercentageOf);
  }

  /** When the total is not positive every percentage is 0. */
  lemma RegionPercentagesZero(ts: seq<Transaction>)
    requires !(KeyedTotal(ts, ByRegion) > 0.0)
    ensures forall i :: 0 <= i < |RegionSales(ts)| ==> RegionSales(ts)[i].percentage == 0.0
  {
    var shares := SharesOf(Rollup(ts, ByRegion), KeyedTotal(ts, ByRegion));
    var r := RegionSales(ts);
    forall i | 0 <= i < |r|
      ensures r[i].percentage == 0.0
    {
      assert r[i] in multiset(shares);
    }
  }

  /** A sorted entry with its percentage dropped. */
  function Unshared(s: RegionShare): RegionTotal {
    RegionTotal(s.region, s.totalSales, s.transactionCount)
  }

  /** Every unsorted entry appears, without its percentage, among the sorted ones. */
  lemma TotalInSales(ts: seq<Transaction>, i: nat)
    requires i < |RegionTotals(ts)|
    ensures exists j :: 0 <= j < |RegionSales(ts)| && Unshared(RegionSales(ts)[j]) == RegionTotals(ts)[i]
  {
    var shares := SharesOf(Rollup(ts, ByRegion), KeyedTotal(ts, ByRegion));
    var r := RegionSales(ts);
    assert shares[i] in multiset(r);
    var j :| 0 <= j < |r| && r[j] == shares[i];
    assert Unshared(r[j]) == RegionTotals(ts)[i];
  }

  /** Every sorted entry, without its percentage, is one of the unsorted ones. */
  lemma SalesInTotals(ts: seq<Transaction>, j: nat)
    requires j < |RegionSales(ts)|
    ensures Unshared(RegionSales(ts)[j]) in RegionTotals(ts)
  {
    var shares := SharesOf(Rollup(ts, ByRegion), KeyedTotal(ts, ByRegion));
    var r := RegionSales(ts);
    assert r[j] in multiset(shares);
    var i :| 0 <= i < |shares| && shares[i] == r[j];
    assert RegionTotals(ts)[i] == Unshared(r[j]);
  }

  /** `region_wise_sales_analysis` has the same regions, totals and counts, in first-seen order instead of sorted. */
  lemma RegionAnalysisAgrees(ts: seq<Transaction>)
    ensures var a := RegionTotals(ts);
            var r := RegionSales(ts);
            && |a| == |r|
            && (forall i :: 0 <= i < |a| ==> a[i].region == Keys(ts, ByRegion)[i])
            && (forall x :: x in a <==> exists j :: 0 <= j < |r| && Unshared(r[j]) == x)
  {
    var a := RegionTotals(ts);
    var r := RegionSales(ts);
    forall x
      ensures x in a <==> exists j :: 0 <= j < |r| && Unshared(r[j]) == x
    {
      if x in a {
        var i :| 0 <= i < |a| && a[i] == x;
        TotalInSales(ts, i);
      }
      if exists j :: 0 <= j < |r| && Unshared(r[j]) == x {
        var j :| 0 <= j < |r| && Unshared(r[j]) == x;
        SalesInTotals(ts, j);
      }
    }
  }

  // ---------------------------------------------------------------------------
  // top_selling_products and low_performing_products

  /** `(ProductName, TotalQuantity, TotalRevenue)`. */
  datatype ProductTotal = ProductTotal(name: string, quantity: int, revenue: real)

  /** The sort key `x[1]`. */
  function QuantityKey(p: ProductTotal): real {
    p.quantity as real
  }

  function ProductTotalOf(g: Group): ProductTotal {
    ProductTotal(g.key, g.quantity, g.amount)
  }

  /** `product_list`, before sorting: one tuple per product, in first-seen order. */
  function ProductList(ts: seq<Transaction>): seq<ProductTotal> {
    var gs := Rollup(ts, ByProduct);
    seq(|gs|, i requires 0 <= i < |gs| => ProductTotalOf(gs[i]))
  }

  /** A tuple is in the product list exactly when it names a product of the input with that product's totals. */
  lemma ProductListExactly(ts: seq<Transaction>, p: ProductTotal)
    ensures p in ProductList(ts) <==>
      && p.name in Keys(ts, ByProduct)
      && p.quantity == SumQuantity(ts, ByProduct, p.name)
      && p.revenue == SumAmount(ts, ByProduct, p.name)
  {
    var ks := Keys(ts, ByProduct);
    if p.name in ks && p.quantity == SumQuantity(ts, ByProduct, p.name) && p.revenue == SumAmount(ts, ByProduct, p.name) {
      var i :| 0 <= i < |ks| && ks[i] == p.name;
      assert ProductList(ts)[i] == p;
    }
  }

  /** The `n` products sold most, by quantity: `product_list[:n]` after the stable descending sort. */
  function TopProducts(ts: seq<Transaction>, n: int): (r: seq<ProductTotal>)
    ensures |r| <= |Keys(ts, ByProduct)|
    ensures n >= 0 ==> |r| <= n
  {
    Prefix(SortBy(ProductList(ts), QuantityKey, true), n)
  }

  method TopSellingProducts(ts: seq<Transaction>, n: int) returns (top: seq<ProductTotal>)
    ensures top == TopProducts(ts, n)
  {
    var groups, _ := Accumulate(ts, ByProduct);
    var productList := seq(|groups|, i requires 0 <= i < |groups| => ProductTotalOf(groups[i]));
    productList := SortBy(productList, QuantityKey, true);
    top := Prefix(productList, n);
  }

  /**
   * For `n >= 0` there are `min(n, number of products)` entries; they are in
   * non-increasing quantity; each is a product of the input, and every
   * product left out sold no more than any product shown.
   */
  lemma TopProductsProperties(ts: seq<Transaction>, n: int)
    ensures var top := TopProducts(ts, n);
            var count := |Keys(ts, ByProduct)|;
            && (n >= 0 ==> |top| == if n <= count then n else count)
            && SortedBy(top, QuantityKey, true)
            && (forall p :: p in top ==> p in ProductList(ts))
            && (forall i, p :: 0 <= i < |top| && p in ProductList(ts) && p !in top ==> p.quantity <= top[i].quantity)
  {
    var top := TopProducts(ts, n);
    TopOfSorted(ProductList(ts), QuantityKey, true, n);
    forall i, p | 0 <= i < |top| && p in ProductList(ts) && p !in top
      ensures p.quantity <= top[i].quantity
    {
      assert !Precedes(p, top[i], QuantityKey, true);
    }
  }

  /** The comprehension `[... if stats['total_quantity'] < threshold]`, in order. */
  function Below(ps: seq<ProductTotal>, threshold: int): (r: seq<ProductTotal>)
    ensures |r| <= |ps|
    ensures forall p :: p in r <==> p in ps && p.quantity < threshold
  {
    if ps == [] then []
    else (if ps[0].quantity < threshold then [ps[0]] else []) + Below(ps[1..], threshold)
  }

  /** The products that sold fewer than `threshold` units, sorted by quantity ascending, stably. */
  function LowProducts(ts: seq<Transaction>, threshold: int): (r: seq<ProductTotal>)
    ensures |r| <= |Keys(ts, ByProduct)|
    ensures forall p :: p in r ==> p.quantity < threshold
  {
    var below := Below(ProductList(ts), threshold);
    var sorted := SortBy(below, QuantityKey, false);
    assert |below| <= |ProductList(ts)| == |Rollup(ts, ByProduct)|;
    SortByMembers(below, QuantityKey, false);
    sorted
  }

  method LowPerformingProducts(ts: seq<Transaction>, threshold: int) returns (low: seq<ProductTotal>)
    ensures low == LowProducts(ts, threshold)
  {
    var groups, _ := Accumulate(ts, ByProduct);
    var productList := seq(|groups|, i requires 0 <= i < |groups| => ProductTotalOf(groups[i]));
    low := Below(productList, threshold);
    low := SortBy(low, QuantityKey, false);
  }

  /**
   * The result holds exactly the products whose total quantity is below the
   * threshold, in non-decreasing quantity, with equal quantities in
   * first-seen order.
   */
  lemma LowProductsProperties(ts: seq<Transaction>, threshold: int)
    ensures var low := LowProducts(ts, threshold);
            && (forall p :: p in low <==> p in ProductList(ts) && p.quantity < threshold)
            && SortedBy(low, QuantityKey, false)
            && forall v :: WithScore(low, QuantityKey, v) == WithScore(Below(ProductList(ts), threshold), QuantityKey, v)
  {
    var below := Below(ProductList(ts), threshold);
    var low := LowProducts(ts, threshold);
    SortBySorted(below, QuantityKey, false);
    forall p
      ensures p in low <==> p in below
    {
      assert p in low <==> p in multiset(low);
      assert p in below <==> p in multiset(below);
    }
    forall v
      ensures WithScore(low, QuantityKey, v) == WithScore(below, QuantityKey, v)
    {
      SortByStable(below, QuantityKey, false, v);
    }
  }

  // ---------------------------------------------------------------------------
  // customer_analysis

  datatype CustomerStat = CustomerStat(customerId: string, totalSpent: real, transactionCount: nat, avgTransactionValue: real)

  /** `total / count`, and 0.0 when there is nothing to divide by (before `round(…, 2)`). */
  function Average(total: real, count: nat): (r: real)
    ensures count > 0 ==> r * count as real == total
    ensures count == 0 ==> r == 0.0
  {
    if count > 0 then total / count as real else 0.0
  }

  function CustomerStatOf(g: Group): CustomerStat {
    CustomerStat(g.key, g.amount, g.count, Average(g.amount, g.count))
  }

  /** The customer dictionary, in first-seen order. */
  function CustomerStats(ts: seq<Transaction>): (r: seq<CustomerStat>)
    ensures |r| == |Keys(ts, ByCustomer)|
    ensures forall i :: 0 <= i < |r| ==> r[i].transactionCount >= 1
  {
    var gs := Rollup(ts, ByCustomer);
    seq(|gs|, i requires 0 <= i < |gs| => CustomerStatOf(gs[i]))
  }

  method CustomerAnalysis(ts: seq<Transaction>) returns (stats: seq<CustomerStat>)
    ensures stats == CustomerStats(ts)
  {
    var groups, _ := Accumulate(ts, ByCustomer);
    stats := [];
    for i := 0 to |groups|
      invariant |stats| == i
      invariant forall m :: 0 <= m < i ==> stats[m] == CustomerStatOf(groups[m])
    {
      var g := groups[i];
      var avgValue := if g.count > 0 then g.amount / g.count as real else 0.0;
      stats := stats + [CustomerStat(g.key, g.amount, g.count, avgValue)];
    }
  }

  /** There is one entry per distinct non-blank customer ID (see `Grouping.KeysExactly`). */
  lemma CustomerStatsKeys(ts: seq<Transaction>)
    ensures var r := CustomerStats(ts);
            forall c :: (exists i :: 0 <= i < |r| && r[i].customerId == c) <==> c in Keys(ts, ByCustomer)
  {
    var r := CustomerStats(ts);
    var ks := Keys(ts, ByCustomer);
    forall c
      ensures (exists i :: 0 <= i < |r| && r[i].customerId == c) <==> c in ks
    {
      if c in ks {
        var i :| 0 <= i < |ks| && ks[i] == c;
        assert r[i].customerId == c;
      }
    }
  }

  /**
   * Each entry's total is the sum of that customer's amounts, its count the
   * number of that customer's transactions (at least one), and its average
   * is that sum over that number.
   */
  lemma CustomerStatsTotals(ts: seq<Transaction>)
    ensures var r := CustomerStats(ts);
            forall i :: 0 <= i < |r| ==>
              && r[i].totalSpent == TotalAmount(Select(ts, ByCustomer, r[i].customerId))
              && r[i].transactionCount == |Select(ts, ByCustomer, r[i].customerId)|
              && r[i].transactionCount >= 1
              && r[i].avgTransactionValue == TotalAmount(Select(ts, ByCustomer, r[i].customerId)) / |Select(ts, ByCustomer, r[i].customerId)| as real
  {
    var r := CustomerStats(ts);
    var ks := Keys(ts, ByCustomer);
    forall i | 0 <= i < |r|
      ensures r[i].totalSpent == TotalAmount(Select(ts, ByCustomer, r[i].customerId))
      ensures r[i].transactionCount == |Select(ts, ByCustomer, r[i].customerId)|
      ensures r[i].transactionCount >= 1
      ensures r[i].avgTransactionValue == TotalAmount(Select(ts, ByCustomer, r[i].customerId)) / |Select(ts, ByCustomer, r[i].customerId)| as real
    {
      assert r[i] == CustomerStatOf(GroupOf(ts, ByCustomer, ks[i]));
      CustomerEntry(ts, ks[i]);
    }
  }

  lemma CustomerEntry(ts: seq<Transaction>, k: string)
    requires k in Keys(ts, ByCustomer)
    ensures var e := CustomerStatOf(GroupOf(ts, ByCustomer, k));
            && e.customerId == k
            && e.totalSpent == TotalAmount(Select(ts, ByCustomer, k))
            && e.transactionCount == |Select(ts, ByCustomer, k)|
            && e.transactionCount >= 1
            && e.avgTransactionValue == TotalAmount(Select(ts, ByCustomer, k)) / |Select(ts, ByCustomer, k)| as real
  {
    GroupIsSelection(ts, ByCustomer, k);
    KeysCounted(ts, ByCustomer, k);
  }
}
