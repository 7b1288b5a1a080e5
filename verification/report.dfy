/**
 * `generate_sales_report`: the figures the report shows, gathered from the
 * aggregators, and the lines of text it is made of. The clock reading and
 * the number formatting are parameters: `now` is the `Generated:` stamp,
 * `money` the `₹{amount:,.2f}` currency text and `fixed2` the `{x:.2f}` text.
 */
module Report {
  import opened Text
  import opened Collections
  import opened Records
  import opened Grouping
  import opened DataProcessor

  // ---------------------------------------------------------------------------
  // The figures

  /** `[t.get('Date', '') for t in transactions if t.get('Date')]`: the non-empty dates, unstripped, in order. */
  function DatesOf(ts: seq<Transaction>): seq<string> {
    if ts == [] then []
    else
      var t := ts[|ts| - 1];
      DatesOf(ts[..|ts| - 1]) + (if t.date != [] then [t.date] else [])
  }

  /** A string is listed exactly when it is the non-empty date of some transaction. */
  lemma {:induction false} DatesExactly(ts: seq<Transaction>, d: string)
    ensures d in DatesOf(ts) <==> d != [] && exists i :: 0 <= i < |ts| && ts[i].date == d
  {
    if ts != [] {
      var init := ts[..|ts| - 1];
      DatesExactly(init, d);
      if exists i :: 0 <= i < |init| && init[i].date == d {
        var i :| 0 <= i < |init| && init[i].date == d;
        assert ts[i].date == d;
      }
      if exists i :: 0 <= i < |ts| && ts[i].date == d {
        var i :| 0 <= i < |ts| && ts[i].date == d;
        if i < |init| {
          assert init[i].date == d;
        }
      }
    }
  }

  /** `min(dates)`, or `'N/A'` when no transaction has a date. */
  function FirstDate(ts: seq<Transaction>): string {
    var dates := DatesOf(ts);
    if dates != [] then MinString(dates) else "N/A"
  }

  /** `max(dates)`, or `'N/A'` when no transaction has a date. */
  function LastDate(ts: seq<Transaction>): string {
    var dates := DatesOf(ts);
    if dates != [] then MaxString(dates) else "N/A"
  }

  /**
   * The date range runs from the smallest to the largest date present, both
   * dates of some transaction, every date lying between them; it is
   * `N/A to N/A` when no transaction has a date.
   */
  lemma DateRangeBounds(ts: seq<Transaction>)
    ensures DatesOf(ts) == [] ==> FirstDate(ts) == "N/A" && LastDate(ts) == "N/A"
    ensures DatesOf(ts) != [] ==>
              && FirstDate(ts) in DatesOf(ts) && LastDate(ts) in DatesOf(ts)
              && StrLessEq(FirstDate(ts), LastDate(ts))
              && forall d :: d in DatesOf(ts) ==> StrLessEq(FirstDate(ts), d) && StrLessEq(d, LastDate(ts))
  {
    var dates := DatesOf(ts);
    if dates != [] {
      var lo := MinString(dates);
      var hi := MaxString(dates);
      StrLessEqTransitive(lo, dates[0], hi);
    }
  }

  /** The key of the `region_avg_value` dictionary and its value. */
  datatype RegionAvg = RegionAvg(region: string, avgValue: real)

  /** The sort key `x[1]`. */
  function AvgValue(a: RegionAvg): real {
    a.avgValue
  }

  /** The average transaction value of one region, 0.0 for a region without transactions. */
  function RegionAvgOf(s: RegionShare): RegionAvg {
    RegionAvg(s.region, Average(s.totalSales, s.transactionCount))
  }

  /** `region_avg_value`, in the order of `region_stats`. */
  function RegionAvgs(ss: seq<RegionShare>): seq<RegionAvg> {
    seq(|ss|, i requires 0 <= i < |ss| => RegionAvgOf(ss[i]))
  }

  /** The loop that fills `region_avg_value`. */
  method RegionAverageValues(regionStats: seq<RegionShare>) returns (avgs: seq<RegionAvg>)
    ensures avgs == RegionAvgs(regionStats)
  {
    avgs := [];
    for i := 0 to |regionStats|
      invariant |avgs| == i
      invariant forall j :: 0 <= j < i ==> avgs[j] == RegionAvgOf(regionStats[j])
    {
      var stats := regionStats[i];
      var avg := if stats.transactionCount > 0 then stats.totalSales / stats.transactionCount as real else 0.0;
      avgs := avgs + [RegionAvg(stats.region, avg)];
    }
  }

  /** The rows of the average-value table: sorted by average, largest first, stably. */
  function RegionAverages(ts: seq<Transaction>): seq<RegionAvg> {
    SortBy(RegionAvgs(RegionSales(ts)), AvgValue, true)
  }

  /**
   * The average-value rows are in non-increasing order, are a rearrangement
   * of one entry per region, and regions with equal averages keep their
   * order in `region_stats`.
   */
  lemma RegionAveragesOrdered(ts: seq<Transaction>)
    ensures var r := RegionAverages(ts);
            && SortedBy(r, AvgValue, true)
            && multiset(r) == multiset(RegionAvgs(RegionSales(ts)))
            && |r| == |Keys(ts, ByRegion)|
            && forall v :: WithScore(r, AvgValue, v) == WithScore(RegionAvgs(RegionSales(ts)), AvgValue, v)
  {
    var avgs := RegionAvgs(RegionSales(ts));
    SortBySorted(avgs, AvgValue, true);
    forall v
      ensures WithScore(RegionAverages(ts), AvgValue, v) == WithScore(avgs, AvgValue, v)
    {
      SortByStable(avgs, AvgValue, true, v);
    }
  }

  /** The average order value is the mean amount of the transactions, and 0.0 for no transactions. */
  lemma AverageOrderValue(ts: seq<Transaction>)
    ensures ts == [] ==> Average(TotalAmount(ts), |ts|) == 0.0
    ensures ts != [] ==> Average(TotalAmount(ts), |ts|) == Sum(ts, Amount) / |ts| as real
  {
    TotalIsSum(ts);
  }

  /** The sort key `x[1]` of the customer tuples. */
  function Spent(c: CustomerStat): real {
    c.totalSpent
  }

  /** The five customers who spent most, largest first; equal totals keep first-seen order. */
  function TopCustomers(ts: seq<Transaction>): seq<CustomerStat> {
    Prefix(SortBy(CustomerStats(ts), Spent, true), 5)
  }

  /**
   * At most five customers are listed (fewer only when there are fewer), in
   * non-increasing order of spending; each is an entry of the customer
   * analysis, and no customer left out spent more than one listed.
   */
  lemma TopCustomersProperties(ts: seq<Transaction>)
    ensures var top := TopCustomers(ts);
            var count := |Keys(ts, ByCustomer)|;
            && |top| == (if count < 5 then count else 5)
            && SortedBy(top, Spent, true)
            && (forall c :: c in top ==> c in CustomerStats(ts))
            && (forall i, c :: 0 <= i < |top| && c in CustomerStats(ts) && c !in top ==> c.totalSpent <= top[i].totalSpent)
  {
    var top := TopCustomers(ts);
    TopOfSorted(CustomerStats(ts), Spent, true, 5);
    forall i, c | 0 <= i < |top| && c in CustomerStats(ts) && c !in top
      ensures c.totalSpent <= top[i].totalSpent
    {
      assert !Precedes(c, top[i], Spent, true);
    }
  }

  /** `sum(1 for t in enriched_transactions if t.get('API_Match', False))`. */
  function EnrichedCount(rs: seq<Record>): (n: nat)
    ensures n <= |rs|
  {
    if rs == [] then 0
    else EnrichedCount(rs[..|rs| - 1]) + (if Matched(rs[|rs| - 1]) then 1 else 0)
  }

  /** Every record is counted exactly when every record matched, none exactly when none did. */
  lemma {:induction false} EnrichedCountExtremes(rs: seq<Record>)
    ensures EnrichedCount(rs) == |rs| <==> forall i :: 0 <= i < |rs| ==> Matched(rs[i])
    ensures EnrichedCount(rs) == 0 <==> forall i :: 0 <= i < |rs| ==> !Matched(rs[i])
  {
    if rs != [] {
      var init := rs[..|rs| - 1];
      EnrichedCountExtremes(init);
    }
  }

  /** `enriched_count / total_enriched * 100`, and 0.0 when nothing was enriched (before `:.2f`). */
  function SuccessRate(rs: seq<Record>): real {
    if |rs| > 0 then EnrichedCount(rs) as real / |rs| as real * 100.0 else 0.0
  }

  /**
   * The success rate lies between 0 and 100; it is 100 exactly when there
   * are records and all of them matched, and 0 exactly when none matched.
   */
  lemma SuccessRateBounds(rs: seq<Record>)
    ensures 0.0 <= SuccessRate(rs) <= 100.0
    ensures SuccessRate(rs) == 100.0 <==> |rs| > 0 && forall i :: 0 <= i < |rs| ==> Matched(rs[i])
    ensures SuccessRate(rs) == 0.0 <==> forall i :: 0 <= i < |rs| ==> !Matched(rs[i])
  {
    EnrichedCountExtremes(rs);
    if |rs| > 0 {
      PercentBounds(EnrichedCount(rs) as real, |rs| as real);
    }
  }

  /** A count `c` out of `n > 0` as a percentage lies in [0, 100], at the ends exactly when `c` is 0 or `n`. */
  lemma PercentBounds(c: real, n: real)
    requires 0.0 <= c <= n && n > 0.0
    ensures 0.0 <= c / n * 100.0 <= 100.0
    ensures c / n * 100.0 == 100.0 <==> c == n
    ensures c / n * 100.0 == 0.0 <==> c == 0.0
  {
    var q := c / n;
    assert q * n == c;
    NonNegativeFactor(q, n);
    NonNegativeFactor(1.0 - q, n);
  }

  /** A product with a positive factor is non-negative only when the other factor is. */
  lemma NonNegativeFactor(a: real, b: real)
    requires b > 0.0 && a * b >= 0.0
    ensures a >= 0.0
  {
  }

  /** The product names of the records that did not match, in order. */
  function UnenrichedNames(rs: seq<Record>): seq<string> {
    if rs == [] then []
    else
      var r := rs[|rs| - 1];
      UnenrichedNames(rs[..|rs| - 1]) + (if !Matched(r) then [r.tx.productName] else [])
  }

  lemma {:induction false} UnenrichedNamesExactly(rs: seq<Record>, x: string)
    ensures x in UnenrichedNames(rs) <==> exists i :: 0 <= i < |rs| && !Matched(rs[i]) && rs[i].tx.productName == x
  {
    if rs != [] {
      var init := rs[..|rs| - 1];
      var r := rs[|rs| - 1];
      UnenrichedNamesExactly(init, x);
      assert forall i :: 0 <= i < |init| ==> init[i] == rs[i];
      if !(!Matched(r) && r.tx.productName == x) && exists i :: 0 <= i < |rs| && !Matched(rs[i]) && rs[i].tx.productName == x {
        var i :| 0 <= i < |rs| && !Matched(rs[i]) && rs[i].tx.productName == x;
        assert i < |init|;
      }
    }
  }

  /** `sorted(set(unenriched_products))`. */
  function Unenriched(rs: seq<Record>): seq<string> {
    SortStrings(Dedup(UnenrichedNames(rs)))
  }

  /**
   * The unenriched list names each product of a non-matching record once,
   * in strictly ascending order, and nothing else; it is empty exactly when
   * every record matched.
   */
  lemma UnenrichedProperties(rs: seq<Record>)
    ensures StrictlyAscending(Unenriched(rs))
    ensures |Unenriched(rs)| <= |rs| - EnrichedCount(rs)
    ensures forall x :: x in Unenriched(rs) <==> exists i :: 0 <= i < |rs| && !Matched(rs[i]) && rs[i].tx.productName == x
    ensures Unenriched(rs) == [] <==> forall i :: 0 <= i < |rs| ==> Matched(rs[i])
  {
    var names := UnenrichedNames(rs);
    SortStringsAscending(Dedup(names));
    forall x
      ensures x in Unenriched(rs) <==> exists i :: 0 <= i < |rs| && !Matched(rs[i]) && rs[i].tx.productName == x
    {
      UnenrichedNamesExactly(rs, x);
    }
    UnenrichedNamesCount(rs);
  }

  lemma {:induction false} UnenrichedNamesCount(rs: seq<Record>)
    ensures |UnenrichedNames(rs)| == |rs| - EnrichedCount(rs)
  {
    if rs != [] {
      UnenrichedNamesCount(rs[..|rs| - 1]);
    }
  }

  /** Everything the report shows, before it is formatted. */
  datatype ReportData = ReportData(
    totalRevenue: real,
    totalTransactions: nat,
    avgOrderValue: real,
    minDate: string,
    maxDate: string,
    regions: seq<RegionShare>,
    topProducts: seq<ProductTotal>,
    topCustomers: seq<CustomerStat>,
    trend: seq<DayTrend>,
    peak: PeakDay,
    lowProducts: seq<ProductTotal>,
    regionAvgs: seq<RegionAvg>,
    totalEnriched: nat,
    enrichedCount: nat,
    successRate: real,
    unenriched: seq<string>)

  /** The figures of the report on `transactions` and `enriched_transactions`. */
  function ReportDataOf(ts: seq<Transaction>, rs: seq<Record>): ReportData {
    ReportData(
      TotalAmount(ts), |ts|, Average(TotalAmount(ts), |ts|),
      FirstDate(ts), LastDate(ts),
      RegionSales(ts), TopProducts(ts, 5), TopCustomers(ts),
      DailyTrend(ts), PeakOf(ts), LowProducts(ts, 10), RegionAverages(ts),
      |rs|, EnrichedCount(rs), SuccessRate(rs), Unenriched(rs))
  }

  /** The first half of `generate_sales_report`: calling the aggregators and deriving the report's figures. */
  method GatherReportData(ts: seq<Transaction>, rs: seq<Record>) returns (d: ReportData)
    ensures d == ReportDataOf(ts, rs)
  {
    var totalRevenue := CalculateTotalRevenue(ts);
    var totalTransactions := |ts|;
    var avgOrderValue := if totalTransactions > 0 then totalRevenue / totalTransactions as real else 0.0;
    assert avgOrderValue == Average(TotalAmount(ts), |ts|);
    var dates := DatesOf(ts);
    var minDate := if dates != [] then MinString(dates) else "N/A";
    var maxDate := if dates != [] then MaxString(dates) else "N/A";
    assert minDate == FirstDate(ts) && maxDate == LastDate(ts);
    var regionStats := RegionWiseSales(ts);
    var topProducts := TopSellingProducts(ts, 5);
    var customerStats := CustomerAnalysis(ts);
    var topCustomers := Prefix(SortBy(customerStats, Spent, true), 5);
    assert topCustomers == TopCustomers(ts);
    var dailyTrend := DailySalesTrend(ts);
    var peakDay := FindPeakSalesDay(ts);
    var lowProducts := LowPerformingProducts(ts, 10);
    var regionAvgValue := RegionAverageValues(regionStats);
    var regionAvgs := SortBy(regionAvgValue, AvgValue, true);
    assert regionAvgs == RegionAverages(ts);
    var enrichedCount := EnrichedCount(rs);
    var totalEnriched := |rs|;
    var successRate := if totalEnriched > 0 then enrichedCount as real / totalEnriched as real * 100.0 else 0.0;
    assert successRate == SuccessRate(rs);
    var uniqueUnenriched := SortStrings(Dedup(UnenrichedNames(rs)));
    assert uniqueUnenriched == Unenriched(rs);
    d := ReportData(
      totalRevenue, totalTransactions, avgOrderValue, minDate, maxDate,
      regionStats, topProducts, topCustomers, dailyTrend, peakDay, lowProducts,
      regionAvgs, totalEnriched, enrichedCount, successRate, uniqueUnenriched);
  }

  // ---------------------------------------------------------------------------
  // The lines

  const Dashes := Repeat('-', 50)
  const Rule := Repeat('=', 50)

  /** `name[:24] if len(name) > 24 else name`. */
  function Short(name: string): (r: string)
    ensures |r| <= 24 && |r| <= |name| && r == name[..|r|]
    ensures |name| <= 24 ==> r == name
    ensures |name| > 24 ==> r == name[..24]
  {
    if |name| > 24 then name[..24] else name
  }

  /** `f"{n:<w}"` for an integer. */
  function IntCell(n: int, w: int): string {
    LeftAlign(IntToString(n), w)
  }

  /** The `... and N more <what>` line under a list cut at `limit` entries, if it was cut. */
  function MoreLine(indent: string, count: nat, limit: nat, what: string): (r: seq<string>)
    ensures |r| == (if count > limit then 1 else 0)
  {
    if count > limit then [indent + "... and " + IntToString(count - limit) + " more " + what] else []
  }

  /** A section title, a rule, the column headings and another rule. */
  function TableHead(title: string, columns: string): seq<string> {
    [title, Dashes, columns, Dashes]
  }

  function HeaderLines(d: ReportData, now: string): seq<string> {
    [Rule,
     Repeat(' ', 15) + "SALES ANALYTICS REPORT",
     Repeat(' ', 10) + "Generated: " + now,
     Repeat(' ', 10) + "Records Processed: " + IntToString(d.totalTransactions),
     Rule,
     ""]
  }

  function SummaryLines(d: ReportData, money: real -> string): seq<string> {
    ["OVERALL SUMMARY",
     Dashes,
     "Total Revenue:        " + money(d.totalRevenue),
     "Total Transactions:   " + IntToString(d.totalTransactions),
     "Average Order Value:  " + money(d.avgOrderValue),
     "Date Range:           " + d.minDate + " to " + d.maxDate,
     ""]
  }

  const RegionColumns := LeftAlign("Region", 12) + " " + LeftAlign("Sales", 15) + " " + LeftAlign("% of Total", 12) + " " + LeftAlign("Transactions", 12)

  function RegionRow(s: RegionShare, money: real -> string, fixed2: real -> string): string {
    LeftAlign(s.region, 12) + " " + LeftAlign(money(s.totalSales), 15) + " " + RightAlign(fixed2(s.percentage), 6) + "%      " + IntCell(s.transactionCount, 12)
  }

  /** One row per region, in the order of `region_stats`. */
  function RegionRows(ss: seq<RegionShare>, money: real -> string, fixed2: real -> string): (r: seq<string>)
    ensures |r| == |ss|
    ensures forall i :: 0 <= i < |ss| ==> r[i] == RegionRow(ss[i], money, fixed2)
  {
    RowsAt(ss, (s: RegionShare) => RegionRow(s, money, fixed2));
    Rows(ss, (s: RegionShare) => RegionRow(s, money, fixed2))
  }

  /** The lines of `for x in xs`, one row per entry, in order. */
  function Rows<T>(xs: seq<T>, row: T -> string): (r: seq<string>)
    ensures |r| == |xs|
  {
    if xs == [] then [] else Rows(xs[..|xs| - 1], row) + [row(xs[|xs| - 1])]
  }

  /** The row at position `i` is the row of the entry at position `i`. */
  lemma {:induction false} RowsAt<T>(xs: seq<T>, row: T -> string)
    ensures forall i :: 0 <= i < |xs| ==> Rows(xs, row)[i] == row(xs[i])
  {
    if xs != [] {
      var init := xs[..|xs| - 1];
      RowsAt(init, row);
      assert forall i :: 0 <= i < |init| ==> init[i] == xs[i];
    }
  }

  /** One more entry of the prefix adds its row. */
  lemma RowsPrefix<T>(xs: seq<T>, i: nat, row: T -> string)
    requires i < |xs|
    ensures Rows(xs[..i + 1], row) == Rows(xs[..i], row) + [row(xs[i])]
  {
    assert xs[..i + 1][..i] == xs[..i];
  }

  /** The lines of `for rank, x in enumerate(xs, 1)`, the last one with the highest rank. */
  function Ranked<T>(xs: seq<T>, row: (int, T) -> string): (r: seq<string>)
    ensures |r| == |xs|
  {
    if xs == [] then [] else Ranked(xs[..|xs| - 1], row) + [row(|xs|, xs[|xs| - 1])]
  }

  /** The element at position `i` is shown with rank `i + 1`. */
  lemma {:induction false} RankedAt<T>(xs: seq<T>, row: (int, T) -> string)
    ensures forall i :: 0 <= i < |xs| ==> Ranked(xs, row)[i] == row(i + 1, xs[i])
  {
    if xs != [] {
      var init := xs[..|xs| - 1];
      RankedAt(init, row);
      assert forall i :: 0 <= i < |init| ==> init[i] == xs[i];
    }
  }

  /** One more element of the prefix adds its row, with the next rank. */
  lemma RankedPrefix<T>(xs: seq<T>, i: nat, row: (int, T) -> string)
    requires i < |xs|
    ensures Ranked(xs[..i + 1], row) == Ranked(xs[..i], row) + [row(i + 1, xs[i])]
  {
    assert xs[..i + 1][..i] == xs[..i];
  }

  const ProductColumns := LeftAlign("Rank", 6) + " " + LeftAlign("Product Name", 25) + " " + LeftAlign("Quantity Sold", 15) + " " + LeftAlign("Revenue", 15)

  function ProductRow(rank: int, p: ProductTotal, money: real -> string): string {
    IntCell(rank, 6) + " " + LeftAlign(Short(p.name), 25) + " " + IntCell(p.quantity, 15) + " " + money(p.revenue)
  }

  /** The rows of `enumerate(top_products, 1)`: the product at position `i` has rank `i + 1`. */
  function ProductRows(ps: seq<ProductTotal>, money: real -> string): (r: seq<string>)
    ensures |r| == |ps|
  {
    Ranked(ps, (rank: int, p: ProductTotal) => ProductRow(rank, p, money))
  }

  const CustomerColumns := LeftAlign("Rank", 6) + " " + LeftAlign("Customer ID", 15) + " " + LeftAlign("Total Spent", 15) + " " + LeftAlign("Order Count", 12)

  function CustomerRow(rank: int, c: CustomerStat, money: real -> string): string {
    IntCell(rank, 6) + " " + LeftAlign(c.customerId, 15) + " " + money(c.totalSpent) + " " + IntCell(c.transactionCount, 12)
  }

  /** The rows of `enumerate(top_customers, 1)`. */
  function CustomerRows(cs: seq<CustomerStat>, money: real -> string): (r: seq<string>)
    ensures |r| == |cs|
  {
    Ranked(cs, (rank: int, c: CustomerStat) => CustomerRow(rank, c, money))
  }

  const DayColumns := LeftAlign("Date", 12) + " " + LeftAlign("Revenue", 15) + " " + LeftAlign("Transactions", 12) + " " + LeftAlign("Unique Customers", 15)

  function DayRow(t: DayTrend, money: real -> string): string {
    LeftAlign(t.date, 12) + " " + LeftAlign(money(t.revenue), 15) + " " + IntCell(t.transactionCount, 12) + " " + IntCell(t.uniqueCustomers, 15)
  }

  /** One row per day shown. */
  function DayRows(ds: seq<DayTrend>, money: real -> string): (r: seq<string>)
    ensures |r| == |ds|
    ensures forall i :: 0 <= i < |ds| ==> r[i] == DayRow(ds[i], money)
  {
    RowsAt(ds, (t: DayTrend) => DayRow(t, money));
    Rows(ds, (t: DayTrend) => DayRow(t, money))
  }

  /** The daily table: the first ten days, then a count of the days not shown. */
  function TrendLines(trend: seq<DayTrend>, money: real -> string): seq<string> {
    TableHead("DAILY SALES TREND", DayColumns) + DayRows(Prefix(trend, 10), money) + MoreLine("", |trend|, 10, "days") + [""]
  }

  /** Three lines naming the peak day and its figures, or the single `N/A` line when there were no sales. */
  function PeakLines(p: PeakDay, money: real -> string): (r: seq<string>)
    ensures |r| == (if p.PeakDay? then 3 else 1)
  {
    match p
    case PeakDay(date, revenue, count) =>
      ["Best Selling Day:     " + date,
       "  Revenue:            " + money(revenue),
       "  Transactions:       " + IntToString(count)]
    case NoSales => ["Best Selling Day:     N/A"]
  }

  const LowColumns := LeftAlign("Product Name", 25) + " " + LeftAlign("Quantity", 12) + " " + LeftAlign("Revenue", 15)

  function LowRow(p: ProductTotal, money: real -> string): string {
    LeftAlign(Short(p.name), 25) + " " + IntCell(p.quantity, 12) + " " + money(p.revenue)
  }

  /** One row per low performer shown. */
  function LowRows(ps: seq<ProductTotal>, money: real -> string): (r: seq<string>)
    ensures |r| == |ps|
    ensures forall i :: 0 <= i < |ps| ==> r[i] == LowRow(ps[i], money)
  {
    RowsAt(ps, (p: ProductTotal) => LowRow(p, money));
    Rows(ps, (p: ProductTotal) => LowRow(p, money))
  }

  function LowLines(low: seq<ProductTotal>, money: real -> string): seq<string> {
    if low != [] then
      ["Low Performing Products (Quantity < 10):", LowColumns, Dashes]
      + LowRows(Prefix(low, 10), money) + MoreLine("", |low|, 10, "products")
    else ["Low Performing Products: None"]
  }

  const AvgColumns := LeftAlign("Region", 12) + " " + LeftAlign("Avg Transaction Value", 20)

  function AvgRow(a: RegionAvg, money: real -> string): string {
    LeftAlign(a.region, 12) + " " + money(a.avgValue)
  }

  /** One row per region, in the order of the sorted averages. */
  function AvgRows(avgs: seq<RegionAvg>, money: real -> string): (r: seq<string>)
    ensures |r| == |avgs|
    ensures forall i :: 0 <= i < |avgs| ==> r[i] == AvgRow(avgs[i], money)
  {
    RowsAt(avgs, (a: RegionAvg) => AvgRow(a, money));
    Rows(avgs, (a: RegionAvg) => AvgRow(a, money))
  }

  /** Section 7: the peak day, the low performers and the per-region averages. */
  function PerformanceLines(d: ReportData, money: real -> string): seq<string> {
    ["PRODUCT PERFORMANCE ANALYSIS", Dashes] + PeakLines(d.peak, money) + [""]
    + LowLines(d.lowProducts, money) + [""]
    + ["Average Transaction Value per Region:", AvgColumns, Dashes] + AvgRows(d.regionAvgs, money) + [""]
  }

  /** One `  - <name>` line per name shown. */
  function BulletRows(names: seq<string>): (r: seq<string>)
    ensures |r| == |names|
    ensures forall i :: 0 <= i < |names| ==> r[i] == "  - " + names[i]
  {
    RowsAt(names, (name: string) => "  - " + name);
    Rows(names, (name: string) => "  - " + name)
  }

  function UnenrichedLines(names: seq<string>): seq<string> {
    if names != [] then
      ["Products That Couldn't Be Enriched (" + IntToString(|names|) + " unique):"]
      + BulletRows(Prefix(names, 20)) + MoreLine("  ", |names|, 20, "products")
    else ["All products successfully enriched!"]
  }

  /** The counting lines of section 8, before the list of products. */
  function EnrichmentHead(d: ReportData, fixed2: real -> string): seq<string> {
    ["API ENRICHMENT SUMMARY",
     Dashes,
     "Total Products Processed:  " + IntToString(d.totalEnriched),
     "Successfully Enriched:     " + IntToString(d.enrichedCount),
     "Success Rate:              " + fixed2(d.successRate) + "%",
     ""]
  }

  /** Section 8: the enrichment counts and the products that could not be enriched. */
  function EnrichmentLines(d: ReportData, fixed2: real -> string): seq<string> {
    EnrichmentHead(d, fixed2) + UnenrichedLines(d.unenriched) + [""]
  }

  /** All the report's lines, section by section. */
  function ReportLines(d: ReportData, now: string, money: real -> string, fixed2: real -> string): seq<string> {
    HeaderLines(d, now) + SummaryLines(d, money)
    + TableHead("REGION-WISE PERFORMANCE", RegionColumns) + RegionRows(d.regions, money, fixed2) + [""]
    + TableHead("TOP 5 PRODUCTS", ProductColumns) + ProductRows(d.topProducts, money) + [""]
    + TableHead("TOP 5 CUSTOMERS", CustomerColumns) + CustomerRows(d.topCustomers, money) + [""]
    + TrendLines(d.trend, money)
    + PerformanceLines(d, money)
    + EnrichmentLines(d, fixed2)
  }

  // ---------------------------------------------------------------------------
  // The loops that format the rows

  /** The region-table loop. */
  method FormatRegionRows(regionStats: seq<RegionShare>, money: real -> string, fixed2: real -> string) returns (rows: seq<string>)
    ensures rows == RegionRows(regionStats, money, fixed2)
  {
    rows := [];
    for i := 0 to |regionStats|
      invariant rows == RegionRows(regionStats[..i], money, fixed2)
    {
      rows := rows + [RegionRow(regionStats[i], money, fixed2)];
      RowsPrefix(regionStats, i, (s: RegionShare) => RegionRow(s, money, fixed2));
    }
    assert regionStats[..|regionStats|] == regionStats;
  }

  /** The `enumerate(top_products, 1)` loop. */
  method FormatProductRows(topProducts: seq<ProductTotal>, money: real -> string) returns (rows: seq<string>)
    ensures rows == ProductRows(topProducts, money)
  {
    rows := [];
    for i := 0 to |topProducts|
      invariant rows == ProductRows(topProducts[..i], money)
    {
      rows := rows + [ProductRow(i + 1, topProducts[i], money)];
      RankedPrefix(topProducts, i, (rank: int, p: ProductTotal) => ProductRow(rank, p, money));
    }
    assert topProducts[..|topProducts|] == topProducts;
  }

  /** The `enumerate(top_customers, 1)` loop. */
  method FormatCustomerRows(topCustomers: seq<CustomerStat>, money: real -> string) returns (rows: seq<string>)
    ensures rows == CustomerRows(topCustomers, money)
  {
    rows := [];
    for i := 0 to |topCustomers|
      invariant rows == CustomerRows(topCustomers[..i], money)
    {
      rows := rows + [CustomerRow(i + 1, topCustomers[i], money)];
      RankedPrefix(topCustomers, i, (rank: int, c: CustomerStat) => CustomerRow(rank, c, money));
    }
    assert topCustomers[..|topCustomers|] == topCustomers;
  }

  /** The loop over the first ten days. */
  method FormatDayRows(shown: seq<DayTrend>, money: real -> string) returns (rows: seq<string>)
    ensures rows == DayRows(shown, money)
  {
    rows := [];
    for i := 0 to |shown|
      invariant rows == DayRows(shown[..i], money)
    {
      rows := rows + [DayRow(shown[i], money)];
      RowsPrefix(shown, i, (t: DayTrend) => DayRow(t, money));
    }
    assert shown[..|shown|] == shown;
  }

  /** The loop over the first ten low performers. */
  method FormatLowRows(shown: seq<ProductTotal>, money: real -> string) returns (rows: seq<string>)
    ensures rows == LowRows(shown, money)
  {
    rows := [];
    for i := 0 to |shown|
      invariant rows == LowRows(shown[..i], money)
    {
      rows := rows + [LowRow(shown[i], money)];
      RowsPrefix(shown, i, (p: ProductTotal) => LowRow(p, money));
    }
    assert shown[..|shown|] == shown;
  }

  /** The loop over the sorted region averages. */
  method FormatAvgRows(avgs: seq<RegionAvg>, money: real -> string) returns (rows: seq<string>)
    ensures rows == AvgRows(avgs, money)
  {
    rows := [];
    for i := 0 to |avgs|
      invariant rows == AvgRows(avgs[..i], money)
    {
      rows := rows + [AvgRow(avgs[i], money)];
      RowsPrefix(avgs, i, (a: RegionAvg) => AvgRow(a, money));
    }
    assert avgs[..|avgs|] == avgs;
  }

  /** The loop over the first twenty unenriched products. */
  method FormatBulletRows(shown: seq<string>) returns (rows: seq<string>)
    ensures rows == BulletRows(shown)
  {
    rows := [];
    for i := 0 to |shown|
      invariant rows == BulletRows(shown[..i])
    {
      rows := rows + ["  - " + shown[i]];
      RowsPrefix(shown, i, (name: string) => "  - " + name);
    }
    assert shown[..|shown|] == shown;
  }

  /** The second half of `generate_sales_report`: appending the report's lines section by section. */
  method RenderReport(d: ReportData, now: string, money: real -> string, fixed2: real -> string) returns (reportLines: seq<string>)
    ensures reportLines == ReportLines(d, now, money, fixed2)
  {
    reportLines := HeaderLines(d, now);
    reportLines := reportLines + SummaryLines(d, money);

    reportLines := reportLines + TableHead("REGION-WISE PERFORMANCE", RegionColumns);
    var regionRows := FormatRegionRows(d.regions, money, fixed2);
    reportLines := reportLines + regionRows;
    reportLines := reportLines + [""];

    reportLines := reportLines + TableHead("TOP 5 PRODUCTS", ProductColumns);
    var productRows := FormatProductRows(d.topProducts, money);
    reportLines := reportLines + productRows;
    reportLines := reportLines + [""];

    reportLines := reportLines + TableHead("TOP 5 CUSTOMERS", CustomerColumns);
    var customerRows := FormatCustomerRows(d.topCustomers, money);
    reportLines := reportLines + customerRows;
    reportLines := reportLines + [""];

    var dayRows := FormatDayRows(Prefix(d.trend, 10), money);
    var trendLines := TableHead("DAILY SALES TREND", DayColumns) + dayRows + MoreLine("", |d.trend|, 10, "days") + [""];
    reportLines := reportLines + trendLines;

    var lowLines: seq<string>;
    if d.lowProducts != [] {
      var lowRows := FormatLowRows(Prefix(d.lowProducts, 10), money);
      lowLines := ["Low Performing Products (Quantity < 10):", LowColumns, Dashes] + lowRows + MoreLine("", |d.lowProducts|, 10, "products");
    } else {
      lowLines := ["Low Performing Products: None"];
    }
    var avgRows := FormatAvgRows(d.regionAvgs, money);
    var performanceLines := ["PRODUCT PERFORMANCE ANALYSIS", Dashes] + PeakLines(d.peak, money) + [""]
      + lowLines + [""]
      + ["Average Transaction Value per Region:", AvgColumns, Dashes] + avgRows + [""];
    reportLines := reportLines + performanceLines;

    var unenrichedLines: seq<string>;
    if d.unenriched != [] {
      var bulletRows := FormatBulletRows(Prefix(d.unenriched, 20));
      unenrichedLines := ["Products That Couldn't Be Enriched (" + IntToString(|d.unenriched|) + " unique):"]
        + bulletRows + MoreLine("  ", |d.unenriched|, 20, "products");
    } else {
      unenrichedLines := ["All products successfully enriched!"];
    }
    reportLines := reportLines + (EnrichmentHead(d, fixed2) + unenrichedLines + [""]);
  }

  /** The whole report on `transactions` and `enriched_transactions`. */
  function SalesReport(ts: seq<Transaction>, rs: seq<Record>, now: string, money: real -> string, fixed2: real -> string): seq<string> {
    ReportLines(ReportDataOf(ts, rs), now, money, fixed2)
  }

  /**
   * `generate_sales_report`: the report's lines and the text written to the
   * report file, the lines joined by newlines.
   */
  method GenerateSalesReport(ts: seq<Transaction>, rs: seq<Record>, now: string, money: real -> string, fixed2: real -> string)
    returns (reportLines: seq<string>, fileText: string)
    ensures reportLines == SalesReport(ts, rs, now, money, fixed2)
    ensures fileText == Join(reportLines, '\n')
  {
    var d := GatherReportData(ts, rs);
    reportLines := RenderReport(d, now, money, fixed2);
    fileText := Join(reportLines, '\n');
  }

  // ---------------------------------------------------------------------------
  // What the report shows

  /** The days the daily table shows: the first ten, in ascending date order. */
  lemma TrendShownDays(ts: seq<Transaction>)
    ensures var days := |Keys(ts, ByDate)|;
            var shown := Prefix(DailyTrend(ts), 10);
            && |shown| == (if days < 10 then days else 10)
            && forall i, j :: 0 <= i < j < |shown| ==> StrLess(shown[i].date, shown[j].date)
  {
    DailyTrendDates(ts);
  }

  /**
   * The daily table has one row per day shown and ends with
   * `... and N more days` exactly when there are more than ten days, `N`
   * being the number of days left out.
   */
  lemma TrendLinesShape(trend: seq<DayTrend>, money: real -> string)
    ensures var lines := TrendLines(trend, money);
            var shown := if |trend| < 10 then |trend| else 10;
            && |lines| == 4 + shown + (if |trend| > 10 then 1 else 0) + 1
            && lines[4..4 + shown] == DayRows(Prefix(trend, 10), money)
            && (|trend| > 10 ==> lines[4 + shown] == "... and " + IntToString(|trend| - 10) + " more days")
            && lines[|lines| - 1] == ""
  {
    var head := TableHead("DAILY SALES TREND", DayColumns);
    var rows := DayRows(Prefix(trend, 10), money);
    var more := MoreLine("", |trend|, 10, "days");
    var body := head + rows + more;
    assert TrendLines(trend, money) == body + [""];
    SectionAt(head, rows, more);
    Closed(body, |head|, |head| + |rows|);
    if |trend| > 10 {
      TrendMoreLine(|trend|);
    }
  }

  /** The text of the line that counts the days left out of the trend table. */
  lemma TrendMoreLine(count: nat)
    requires count > 10
    ensures MoreLine("", count, 10, "days") == ["... and " + IntToString(count - 10) + " more days"]
  {
    var n := IntToString(count - 10);
    assert "" + "... and " == "... and ";
    assert " more " + "days" == " more days";
    assert ("... and " + n + " more ") + "days" == "... and " + n + (" more " + "days");
  }

  /** Where the rows and the trailing lines of a section sit among its lines. */
  lemma SectionAt(head: seq<string>, rows: seq<string>, more: seq<string>)
    ensures (head + rows + more)[|head|..|head| + |rows|] == rows
    ensures |more| > 0 ==> (head + rows + more)[|head| + |rows|] == more[0]
  {
  }

  /** A section closed by a blank line keeps its lines in front of that blank line. */
  lemma Closed(body: seq<string>, i: nat, j: nat)
    requires i <= j <= |body|
    ensures |body + [""]| == |body| + 1 && (body + [""])[|body|] == ""
    ensures (body + [""])[i..j] == body[i..j]
    ensures j < |body| ==> (body + [""])[j] == body[j]
  {
  }

  /** The peak-day lines say `N/A` exactly when no transaction has a date key. */
  lemma PeakLinesShape(ts: seq<Transaction>, money: real -> string)
    ensures PeakLines(PeakOf(ts), money) == ["Best Selling Day:     N/A"] <==> Keys(ts, ByDate) == []
  {
  }

  /**
   * The low-performers section is the single `None` line exactly when there
   * are no low performers; otherwise it has a title, the column headings, a
   * rule, at most ten rows and, when more than ten, `... and N more products`
   * with `N` the number left out.
   */
  lemma LowLinesShape(low: seq<ProductTotal>, money: real -> string)
    ensures low == [] <==> LowLines(low, money) == ["Low Performing Products: None"]
    ensures var lines := LowLines(low, money);
            var shown := if |low| < 10 then |low| else 10;
            low != [] ==>
              && |lines| == 3 + shown + (if |low| > 10 then 1 else 0)
              && lines[3..3 + shown] == LowRows(Prefix(low, 10), money)
              && (|low| > 10 ==> lines[3 + shown] == "... and " + IntToString(|low| - 10) + " more products")
  {
    if low != [] {
      var head := ["Low Performing Products (Quantity < 10):", LowColumns, Dashes];
      var rows := LowRows(Prefix(low, 10), money);
      var more := MoreLine("", |low|, 10, "products");
      assert LowLines(low, money) == head + rows + more;
      SectionAt(head, rows, more);
      if |low| > 10 {
        LowMoreLine(|low|);
      }
    }
  }

  /** The text of the line that counts the low performers left out. */
  lemma LowMoreLine(count: nat)
    requires count > 10
    ensures MoreLine("", count, 10, "products") == ["... and " + IntToString(count - 10) + " more products"]
  {
    var n := IntToString(count - 10);
    assert "" + "... and " == "... and ";
    assert " more " + "products" == " more products";
    assert ("... and " + n + " more ") + "products" == "... and " + n + (" more " + "products");
  }

  /** The list of unenriched products shows at most twenty names and says how many it leaves out. */
  lemma UnenrichedLinesShape(rs: seq<Record>)
    ensures var names := Unenriched(rs);
            var lines := UnenrichedLines(names);
            && (lines == ["All products successfully enriched!"] <==> forall i :: 0 <= i < |rs| ==> Matched(rs[i]))
            && (names != [] ==> |lines| == 1 + (if |names| < 20 then |names| else 20) + (if |names| > 20 then 1 else 0))
  {
    UnenrichedProperties(rs);
    var names := Unenriched(rs);
    if names != [] {
      assert UnenrichedLines(names)[0] != "All products successfully enriched!" by {
        var head := "Products That Couldn't Be Enriched (" + IntToString(|names|) + " unique):";
        assert head[0] == 'P';
      }
    }
  }

  /** The product at position `i` of the table is shown with rank `i + 1`. */
  lemma ProductRanks(ps: seq<ProductTotal>, money: real -> string)
    ensures forall i :: 0 <= i < |ps| ==> ProductRows(ps, money)[i] == ProductRow(i + 1, ps[i], money)
  {
    RankedAt(ps, (rank: int, p: ProductTotal) => ProductRow(rank, p, money));
  }

  /** The customer at position `i` of the table is shown with rank `i + 1`. */
  lemma CustomerRanks(cs: seq<CustomerStat>, money: real -> string)
    ensures forall i :: 0 <= i < |cs| ==> CustomerRows(cs, money)[i] == CustomerRow(i + 1, cs[i], money)
  {
    RankedAt(cs, (rank: int, c: CustomerStat) => CustomerRow(rank, c, money));
  }

  /** The top-products table lists at most five products, ranked from 1. */
  lemma TopProductsTable(ts: seq<Transaction>, money: real -> string)
    ensures var top := TopProducts(ts, 5);
            var count := |Keys(ts, ByProduct)|;
            && |ProductRows(top, money)| == (if count < 5 then count else 5)
  {
    TopProductsProperties(ts, 5);
  }
}
