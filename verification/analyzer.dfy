/**
 * The SalesAnalyzer object: a lazily loaded sales frame, the derived
 * columns the analyses add to it, and the overall statistics and report
 * built from the per-sale revenue.
 */
module SalesAnalysis {
  import opened SampleStatistics
  import opened SalesRecords
  import opened Grouping
  import opened MonthlyTrends
  import opened ProductRanking

  datatype Option<T> = None | Some(value: T)

  // ---------------------------------------------------------------------
  // calculate_statistics
  // ---------------------------------------------------------------------

  /**
   * The dictionary calculate_statistics returns. std_sale_value is held
   * as its square, saleValueVariance.
   */
  datatype SalesStatistics = SalesStatistics(
    totalRevenue: int,
    averageSaleValue: real,
    medianSaleValue: real,
    saleValueVariance: real,
    minSaleValue: int,
    maxSaleValue: int,
    totalItemsSold: int,
    totalTransactions: int,
    averageQuantityPerSale: real,
    averagePrice: real)

  /**
   * The overall statistics of a batch of sales. np.min and np.max raise on
   * an empty array, so an empty batch has no statistics.
   */
  function StatisticsOf(rs: seq<Sale>): (r: Option<SalesStatistics>)
    ensures r.Some? <==> rs != []
    ensures r.Some? ==>
      && r.value.totalRevenue == TotalRevenue(rs)
      && r.value.totalItemsSold == TotalQuantity(rs)
      && r.value.totalTransactions == |rs|
  {
    if rs == [] then None
    else
      var revenue := Column(rs, Revenue);
      var d := Describe(revenue);
      SumOfColumn(rs, Revenue);
      SumOfColumn(rs, Quantity);
      Some(SalesStatistics(
        d.sum, d.mean, d.median, d.variance, d.min, d.max,
        Sum(Column(rs, Quantity)), |rs|,
        Mean(Column(rs, Quantity)), Mean(Column(rs, Price))))
  }

  /** A value of a column is the figure of some sale. */
  lemma ColumnValueOfSomeSale(rs: seq<Sale>, f: Sale -> int, v: int)
    requires v in Column(rs, f)
    ensures exists s :: s in rs && f(s) == v
  {
    var i :| 0 <= i < |rs| && Column(rs, f)[i] == v;
    assert rs[i] in rs;
  }

  /**
   * average_sale_value is total_revenue over total_transactions, and the
   * other averages are likewise the column totals over the number of sales.
   */
  lemma StatisticsAverages(rs: seq<Sale>)
    requires rs != []
    ensures var st := StatisticsOf(rs).value;
      && st.averageSaleValue == st.totalRevenue as real / st.totalTransactions as real
      && st.averageQuantityPerSale == st.totalItemsSold as real / st.totalTransactions as real
      && st.averagePrice == SumOf(rs, Price) as real / |rs| as real
  {
    SumOfColumn(rs, Revenue);
    SumOfColumn(rs, Quantity);
    SumOfColumn(rs, Price);
  }

  /**
   * min_sale_value and max_sale_value are the revenues of actual sales and
   * bound every sale's revenue; the average and the median lie between them.
   */
  lemma SaleValueBounds(rs: seq<Sale>)
    requires rs != []
    ensures var st := StatisticsOf(rs).value;
      && (forall s :: s in rs ==> st.minSaleValue <= Revenue(s) <= st.maxSaleValue)
      && (exists s :: s in rs && Revenue(s) == st.minSaleValue)
      && (exists s :: s in rs && Revenue(s) == st.maxSaleValue)
      && st.medianSaleValue == Median(Column(rs, Revenue))
      && st.minSaleValue as real <= st.medianSaleValue <= st.maxSaleValue as real
      && st.minSaleValue as real <= st.averageSaleValue <= st.maxSaleValue as real
  {
    var st := StatisticsOf(rs).value;
    var revenue := Column(rs, Revenue);
    forall s | s in rs ensures st.minSaleValue <= Revenue(s) <= st.maxSaleValue {
      var i :| 0 <= i < |rs| && rs[i] == s;
      assert revenue[i] == Revenue(s);
    }
    ColumnValueOfSomeSale(rs, Revenue, st.minSaleValue);
    ColumnValueOfSomeSale(rs, Revenue, st.maxSaleValue);
  }

  /**
   * std_sale_value is the population standard deviation: its square is the
   * mean squared distance of the sales' revenues from average_sale_value,
   * never negative, and zero exactly when every sale brought in the same
   * revenue.
   */
  lemma SaleValueSpread(rs: seq<Sale>)
    requires rs != []
    ensures var st := StatisticsOf(rs).value;
      && st.saleValueVariance == SqDev(Column(rs, Revenue), st.averageSaleValue) / |rs| as real
      && st.saleValueVariance >= 0.0
      && (st.saleValueVariance == 0.0 <==> forall a, b :: a in rs && b in rs ==> Revenue(a) == Revenue(b))
  {
    var revenue := Column(rs, Revenue);
    if forall a, b :: a in rs && b in rs ==> Revenue(a) == Revenue(b) {
      forall i, j | 0 <= i < |revenue| && 0 <= j < |revenue| ensures revenue[i] == revenue[j] {
        assert rs[i] in rs && rs[j] in rs;
      }
    }
    if AllEqual(revenue) {
      forall a, b | a in rs && b in rs ensures Revenue(a) == Revenue(b) {
        var i :| 0 <= i < |rs| && rs[i] == a;
        var j :| 0 <= j < |rs| && rs[j] == b;
        assert revenue[i] == Revenue(a) && revenue[j] == Revenue(b);
      }
    }
  }

  // ---------------------------------------------------------------------
  // generate_summary_report
  // ---------------------------------------------------------------------

  /**
   * What generate_summary_report returns, together with the monthly
   * revenue statistics it prints: mean, median, std (squared), best and
   * worst month.
   */
  datatype Report = Report(
    stats: SalesStatistics,
    bestProducts: seq<ProductRow>,
    monthly: seq<MonthRow>,
    monthlyRevenue: Summary)

  /**
   * The report of a batch of sales. On an empty batch calculate_statistics
   * raises before anything else is computed, so there is no report.
   */
  function SummaryReportOf(rs: seq<Sale>): (r: Option<Report>)
    ensures r.Some? <==> rs != []
    ensures r.Some? ==> |r.value.monthly| > 0 && |r.value.bestProducts| <= 10
  {
    match StatisticsOf(rs)
    case None => None
    case Some(stats) =>
      var best := BestSellers(rs, 10);
      var monthly := MonthlyTable(rs);
      MonthlyEmptyIff(rs);
      BestSellingLengthAndOrder(rs, 10);
      Some(Report(stats, best, monthly, Describe(RevenueColumn(monthly))))
  }

  /**
   * The report's figures agree with each other: the monthly revenues add
   * up to total_revenue, and the best month is the largest monthly revenue
   * and the worst the smallest.
   */
  lemma ReportIsConsistent(rs: seq<Sale>)
    requires rs != []
    ensures var report := SummaryReportOf(rs).value;
      var t := report.monthly;
      && report.monthlyRevenue.sum == report.stats.totalRevenue
      && (forall i :: 0 <= i < |t| ==> report.monthlyRevenue.min <= t[i].revenue <= report.monthlyRevenue.max)
      && (exists i :: 0 <= i < |t| && t[i].revenue == report.monthlyRevenue.max)
      && (exists i :: 0 <= i < |t| && t[i].revenue == report.monthlyRevenue.min)
      && report.monthlyRevenue.median == Median(RevenueColumn(t))
      && report.monthlyRevenue.min as real <= report.monthlyRevenue.median <= report.monthlyRevenue.max as real
      && report.monthlyRevenue.variance >= 0.0
  {
    var report := SummaryReportOf(rs).value;
    var t := report.monthly;
    var c := RevenueColumn(t);
    MonthlyTotalsAddUp(rs);
    var i :| 0 <= i < |c| && c[i] == report.monthlyRevenue.max;
    var j :| 0 <= j < |c| && c[j] == report.monthlyRevenue.min;
  }

  /**
   * The report's top products are at most ten, ordered by revenue, highest
   * first, and no product left out of them earns more than one kept.
   */
  lemma ReportTopProducts(rs: seq<Sale>)
    requires rs != []
    ensures var report := SummaryReportOf(rs).value;
      var top, all := report.bestProducts, ProductStats(rs);
      && |top| <= 10
      && NonIncreasing(top)
      && (forall i, j :: 0 <= i < |top| && 0 <= j < |all| && all[j] !in top ==> all[j].revenue <= top[i].revenue)
  {
    BestSellingLengthAndOrder(rs, 10);
    BestSellingIsTop(rs, 10);
  }

  /** The monthly revenue mean the report prints is the avg_revenue every monthly row carries. */
  lemma ReportMonthlyMean(rs: seq<Sale>)
    requires rs != []
    ensures var report := SummaryReportOf(rs).value;
      forall i :: 0 <= i < |report.monthly| ==>
        && report.monthly[i].avgRevenue == report.monthlyRevenue.mean
        && report.monthly[i].revenueVariance == report.monthlyRevenue.variance
  {
    MonthlySharedStatistics(rs);
  }

  // ---------------------------------------------------------------------
  // The analyzer object
  // ---------------------------------------------------------------------

  /** The loaded DataFrame: the sales rows and the derived columns added so far. */
  datatype Frame = Frame(rows: seq<Sale>, revenue: Option<seq<int>>, yearMonth: Option<seq<int>>)

  /** The year_month column: each sale's month period. */
  function Periods(rs: seq<Sale>): (c: seq<int>)
    ensures |c| == |rs|
    ensures forall i :: 0 <= i < |rs| ==> c[i] == MonthPeriod(rs[i].saleDate)
  {
    seq(|rs|, i requires 0 <= i < |rs| => MonthPeriod(rs[i].saleDate))
  }

  /** A derived column, once added, holds the figure of the row beside it. */
  predicate ColumnsAgree(f: Frame)
  {
    && (f.revenue.Some? ==> f.revenue.value == Column(f.rows, Revenue))
    && (f.yearMonth.Some? ==> f.yearMonth.value == Periods(f.rows))
  }

  /**
   * The analyzer. `sales` stands for the database behind db_path: the rows
   * the query in load_data returns, already ordered by sale date.
   */
  class SalesAnalyzer {
    const sales: seq<Sale>
    var df: Option<Frame>

    ghost predicate Valid()
      reads this
    {
      df.Some? ==> df.value.rows == sales && ColumnsAgree(df.value)
    }

    /** The frame an analysis works on: the one loaded, or a fresh load. */
    function Current(): (f: Frame)
      reads this
    {
      if df.Some? then df.value else Frame(sales, None, None)
    }

    constructor(sales: seq<Sale>)
      ensures Valid()
      ensures this.sales == sales && df == None
    {
      this.sales := sales;
      df := None;
    }

    /** Loads the rows afresh, without any derived column. */
    method LoadData() returns (frame: Frame)
      modifies this
      ensures Valid()
      ensures df == Some(Frame(sales, None, None)) && frame == df.value
    {
      df := Some(Frame(sales, None, None));
      frame := df.value;
    }

    method CalculateTotalRevenue() returns (total: int)
      requires Valid()
      modifies this
      ensures Valid() && df == Some(old(Current()))
      ensures total == TotalRevenue(sales)
    {
      if df.None? {
        var _ := LoadData();
      }
      var rows := df.value.rows;
      var revenueArray := Column(rows, Revenue);
      total := Sum(revenueArray);
      SumOfColumn(rows, Revenue);
    }

    /** Adds the revenue and year_month columns, then tabulates the months. */
    method CalculateMonthlyTrends() returns (monthly: seq<MonthRow>)
      requires Valid()
      modifies this
      ensures Valid()
      ensures df == Some(old(Current()).(revenue := Some(Column(sales, Revenue)), yearMonth := Some(Periods(sales))))
      ensures monthly == MonthlyTable(sales)
    {
      if df.None? {
        var _ := LoadData();
      }
      var frame := df.value;
      df := Some(frame.(revenue := Some(Column(frame.rows, Revenue))));
      df := Some(df.value.(yearMonth := Some(Periods(frame.rows))));
      monthly := MonthlyTable(frame.rows);
    }

    /** Adds the revenue column, then ranks the products. */
    method FindBestSellingProducts(topN: int := 10) returns (best: seq<ProductRow>)
      requires Valid()
      modifies this
      ensures Valid()
      ensures df == Some(old(Current()).(revenue := Some(Column(sales, Revenue))))
      ensures best == BestSellers(sales, topN)
    {
      if df.None? {
        var _ := LoadData();
      }
      var frame := df.value;
      df := Some(frame.(revenue := Some(Column(frame.rows, Revenue))));
      best := BestSellers(frame.rows, topN);
    }

    method CalculateStatistics() returns (stats: Option<SalesStatistics>)
      requires Valid()
      modifies this
      ensures Valid() && df == Some(old(Current()))
      ensures stats == StatisticsOf(sales)
    {
      if df.None? {
        var _ := LoadData();
      }
      stats := StatisticsOf(df.value.rows);
    }

    /**
     * Statistics, the top ten products, the monthly table and the monthly
     * revenue statistics, in that order; an empty table stops at the
     * statistics.
     */
    method GenerateSummaryReport() returns (report: Option<Report>)
      requires Valid()
      modifies this
      ensures Valid()
      ensures report == SummaryReportOf(sales)
      ensures df == if sales == [] then Some(old(Current()))
        else Some(old(Current()).(revenue := Some(Column(sales, Revenue)), yearMonth := Some(Periods(sales))))
    {
      var stats := CalculateStatistics();
      if stats.None? {
        report := None;
        return;
      }
      var best := FindBestSellingProducts(10);
      var monthly := CalculateMonthlyTrends();
      MonthlyEmptyIff(sales);
      var monthlyRevenue := RevenueColumn(monthly);
      report := Some(Report(stats.value, best, monthly, Describe(monthlyRevenue)));
    }
  }

  /**
   * Two analyses agree on the same analyzer: the statistics' total_revenue
   * is calculate_total_revenue's result, and asking again for the monthly
   * table or the ranking gives the same table, whatever the first call
   * added to the frame.
   */
  method RepeatedAnalyses(analyzer: SalesAnalyzer, topN: int)
      returns (total: int, stats: Option<SalesStatistics>,
               monthly: seq<MonthRow>, monthlyAgain: seq<MonthRow>,
               best: seq<ProductRow>, bestAgain: seq<ProductRow>)
    requires analyzer.Valid()
    modifies analyzer
    ensures analyzer.Valid()
    ensures stats.Some? <==> analyzer.sales != []
    ensures stats.Some? ==> stats.value.totalRevenue == total
    ensures monthly == monthlyAgain && best == bestAgain
  {
    total := analyzer.CalculateTotalRevenue();
    stats := analyzer.CalculateStatistics();
    monthly := analyzer.CalculateMonthlyTrends();
    monthlyAgain := analyzer.CalculateMonthlyTrends();
    best := analyzer.FindBestSellingProducts(topN);
    bestAgain := analyzer.FindBestSellingProducts(topN);
  }

  // ---------------------------------------------------------------------
  // A worked example
  // ---------------------------------------------------------------------

  /** Two laptops at $1000 and five mice at $20 in January 2024, one laptop in February. */
  function ExampleSales(): (rs: seq<Sale>)
  {
    [ Sale(1, "Laptop", 2, 100000, Date(2024, 1, 5)),
      Sale(2, "Mouse", 5, 2000, Date(2024, 1, 20)),
      Sale(3, "Laptop", 1, 100000, Date(2024, 2, 10)) ]
  }

  lemma ExampleMonths()
    ensures GroupKeys(ExampleSales(), ByMonth) == [Month(648), Month(649)]
  {
    var rs := ExampleSales();
    assert MonthPeriod(rs[0].saleDate) == 648 && MonthPeriod(rs[2].saleDate) == 649;
    assert GroupKeys(rs[2..], ByMonth) == [Month(649)];
    assert rs[1..][1..] == rs[2..];
    assert GroupKeys(rs[1..], ByMonth) == [Month(648), Month(649)];
  }

  lemma ExampleProducts()
    ensures GroupKeys(ExampleSales(), ByProduct) == [Product("Laptop"), Product("Mouse")]
  {
    var rs := ExampleSales();
    var laptop, mouse := Product("Laptop"), Product("Mouse");
    assert GroupKeys(rs[2..], ByProduct) == [laptop];
    assert rs[1..][1..] == rs[2..];
    assert "Mouse"[0] == 'M' && "Laptop"[0] == 'L';
    assert !KeyLess(mouse, laptop);
    assert InsertKey([laptop], mouse) == [laptop] + InsertKey([], mouse);
    assert GroupKeys(rs[1..], ByProduct) == [laptop, mouse];
  }

  lemma ExampleMonthlyTable()
    ensures var t := MonthlyTable(ExampleSales());
      && |t| == 2
      && t[0].period == MonthPeriod(Date(2024, 1, 1)) && t[0].revenue == 210000 && t[0].numSales == 2
      && t[1].period == MonthPeriod(Date(2024, 2, 1)) && t[1].revenue == 100000 && t[1].numSales == 1
  {
    var rs := ExampleSales();
    ExampleMonths();
    assert rs[1..][1..] == rs[2..];
    assert rs[2..][1..] == [];
    var jan := Members(rs, ByMonth, Month(648));
    var feb := Members(rs, ByMonth, Month(649));
    assert jan == [rs[0], rs[1]];
    assert feb == [rs[2]];
    assert jan[1..][1..] == [];
    RowOfKey(rs, 0);
    RowOfKey(rs, 1);
  }

  lemma ExampleLaptopRow()
    ensures Product("Laptop") in GroupKeys(ExampleSales(), ByProduct)
    ensures ProductRowOf(ExampleSales(), "Laptop") == ProductRow("Laptop", 300000, 3, 2, 100000.0)
  {
    var rs := ExampleSales();
    ExampleProducts();
    assert rs[1..][1..] == rs[2..];
    assert rs[2..][1..] == [];
    var laptops := Members(rs, ByProduct, Product("Laptop"));
    assert laptops == [rs[0], rs[2]];
    assert laptops[1..][1..] == [];
    assert SumOf(laptops[1..], Revenue) == 100000 && SumOf(laptops, Revenue) == 300000;
    assert SumOf(laptops[1..], Quantity) == 1 && SumOf(laptops, Quantity) == 3;
    assert SumOf(laptops[1..], One) == 1 && SumOf(laptops, One) == 2;
    var prices := Column(laptops, Price);
    assert prices == [100000, 100000] && prices[1..][1..] == [];
    assert Sum(prices[1..]) == 100000 && Sum(prices) == 200000;
    assert Mean(prices) == 100000.0;
  }

  lemma ExampleMouseRow()
    ensures Product("Mouse") in GroupKeys(ExampleSales(), ByProduct)
    ensures ProductRowOf(ExampleSales(), "Mouse") == ProductRow("Mouse", 10000, 5, 1, 2000.0)
  {
    var rs := ExampleSales();
    ExampleProducts();
    assert rs[1..][1..] == rs[2..];
    assert rs[2..][1..] == [];
    var mice := Members(rs, ByProduct, Product("Mouse"));
    assert mice == [rs[1]];
    assert SumOf(mice, Revenue) == 10000 && SumOf(mice, Quantity) == 5 && SumOf(mice, One) == 1;
    var prices := Column(mice, Price);
    assert prices == [2000] && Sum(prices) == 2000;
    assert Mean(prices) == 2000.0;
  }

  lemma ExampleProductStats()
    ensures ProductStats(ExampleSales()) ==
      [ProductRow("Laptop", 300000, 3, 2, 100000.0), ProductRow("Mouse", 10000, 5, 1, 2000.0)]
  {
    var rs := ExampleSales();
    ExampleProducts();
    ExampleLaptopRow();
    ExampleMouseRow();
    var all := ProductStats(rs);
    assert all[0].product == "Laptop" && all[1].product == "Mouse";
    ProductStatsRows(rs, 0);
    ProductStatsRows(rs, 1);
  }

  lemma ExampleBestSellers()
    ensures var top := BestSellers(ExampleSales(), 10);
      |top| == 2 && top[0].product == "Laptop" && top[0].revenue == 300000 && top[0].numSales == 2
  {
    ExampleProductStats();
    var laptop := ProductRow("Laptop", 300000, 3, 2, 100000.0);
    var mouse := ProductRow("Mouse", 10000, 5, 1, 2000.0);
    var sorted := SortOfTwo(laptop, mouse);
    assert BestSellers(ExampleSales(), 10) == Head(sorted, 10);
  }

  lemma SortOfTwo(a: ProductRow, b: ProductRow) returns (sorted: seq<ProductRow>)
    requires a.revenue >= b.revenue
    ensures sorted == SortByRevenue([a, b]) == [a, b]
  {
    assert [a, b][1..] == [b];
    assert SortByRevenue([b]) == [b];
    sorted := [a, b];
  }

  lemma ExampleTotal()
    ensures TotalRevenue(ExampleSales()) == 310000
  {
    var rs := ExampleSales();
    assert rs[1..][1..] == rs[2..];
    assert rs[2..][1..] == [];
  }
}
