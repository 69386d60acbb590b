/**
 * SalesAnalyzer.calculate_monthly_trends: revenue, quantity and number of
 * sales per calendar month, in chronological order, with the mean and the
 * population spread of the monthly revenues attached to every row.
 */
module MonthlyTrends {
  import opened SampleStatistics
  import opened SalesRecords
  import opened Grouping

  /**
   * One row of the monthly table, indexed by the month period. Every row
   * carries the same table-wide avgRevenue and revenueVariance (the square
   * of the std_revenue column).
   */
  datatype MonthRow = MonthRow(
    period: int,
    revenue: int,
    quantity: int,
    numSales: int,
    avgRevenue: real,
    revenueVariance: real)

  /** The month index holds Month keys only. */
  lemma MonthKeysAreMonths(rs: seq<Sale>)
    ensures forall k :: k in GroupKeys(rs, ByMonth) ==> k.Month?
  {
    forall k | k in GroupKeys(rs, ByMonth) ensures k.Month? {
      var r :| r in rs && KeyOf(ByMonth, r) == k;
    }
  }

  /**
   * groupby('year_month') with revenue summed, quantity summed and ids
   * counted, then np.mean and np.std of the revenue column assigned to
   * every row.
   */
  function MonthlyTable(rs: seq<Sale>): (t: seq<MonthRow>)
    ensures |t| == |GroupKeys(rs, ByMonth)|
    ensures forall i, j :: 0 <= i < j < |t| ==> t[i].period < t[j].period
  {
    var ks := GroupKeys(rs, ByMonth);
    MonthKeysAreMonths(rs);
    if ks == [] then []
    else
      var revenues := KeyTotals(rs, ByMonth, ks, Revenue);
      var quantities := KeyTotals(rs, ByMonth, ks, Quantity);
      var counts := KeyTotals(rs, ByMonth, ks, One);
      var avg := Mean(revenues);
      var variance := Variance(revenues);
      var t := seq(|ks|, i requires 0 <= i < |ks| =>
        MonthRow(ks[i].period, revenues[i], quantities[i], counts[i], avg, variance));
      assert forall i, j :: 0 <= i < j < |t| ==> t[i].period < t[j].period by {
        forall i, j | 0 <= i < j < |t| ensures t[i].period < t[j].period {
          assert KeyLess(ks[i], ks[j]);
        }
      }
      t
  }

  function RevenueColumn(t: seq<MonthRow>): (c: seq<int>)
    ensures |c| == |t| && forall i :: 0 <= i < |t| ==> c[i] == t[i].revenue
  {
    seq(|t|, i requires 0 <= i < |t| => t[i].revenue)
  }

  function QuantityColumn(t: seq<MonthRow>): (c: seq<int>)
    ensures |c| == |t| && forall i :: 0 <= i < |t| ==> c[i] == t[i].quantity
  {
    seq(|t|, i requires 0 <= i < |t| => t[i].quantity)
  }

  function NumSalesColumn(t: seq<MonthRow>): (c: seq<int>)
    ensures |c| == |t| && forall i :: 0 <= i < |t| ==> c[i] == t[i].numSales
  {
    seq(|t|, i requires 0 <= i < |t| => t[i].numSales)
  }

  /** The sales dated in a given year and month, in row order. */
  function SalesInMonth(rs: seq<Sale>, year: int, month: int): (m: seq<Sale>)
    ensures forall s :: s in m ==> s in rs && s.saleDate.year == year && s.saleDate.month == month
  {
    if rs == [] then []
    else
      var rest := SalesInMonth(rs[1..], year, month);
      var d := rs[0].saleDate;
      if d.year == year && d.month == month then [rs[0]] + rest else rest
  }

  /** The group of a period holds exactly the sales dated in its year and month. */
  lemma {:induction false} MonthGroupIsSalesInMonth(rs: seq<Sale>, p: int)
    ensures Members(rs, ByMonth, Month(p)) == SalesInMonth(rs, PeriodYear(p), PeriodMonth(p))
  {
    if rs != [] {
      MonthGroupIsSalesInMonth(rs[1..], p);
      var d := rs[0].saleDate;
      PeriodRoundTrip(d);
      PeriodOfParts(p, d.day);
      SamePeriod(d, Date(PeriodYear(p), PeriodMonth(p), d.day));
    }
  }

  /** Row i of the table, keyed by its group key. */
  lemma RowOfKey(rs: seq<Sale>, i: int)
    requires 0 <= i < |MonthlyTable(rs)|
    ensures GroupKeys(rs, ByMonth)[i] == Month(MonthlyTable(rs)[i].period)
    ensures
      var t, k := MonthlyTable(rs), GroupKeys(rs, ByMonth)[i];
      t[i].revenue == SumOf(Members(rs, ByMonth, k), Revenue)
      && t[i].quantity == SumOf(Members(rs, ByMonth, k), Quantity)
      && t[i].numSales == SumOf(Members(rs, ByMonth, k), One)
  {
    MonthKeysAreMonths(rs);
    assert GroupKeys(rs, ByMonth)[i] in GroupKeys(rs, ByMonth);
  }

  /**
   * The months of the table are the distinct year-months of the sales, in
   * ascending chronological order.
   */
  lemma MonthlyIndex(rs: seq<Sale>)
    ensures var t := MonthlyTable(rs);
      && (forall i, j :: 0 <= i < j < |t| ==> t[i].period < t[j].period)
      && (forall i :: 0 <= i < |t| ==> exists r :: r in rs && MonthPeriod(r.saleDate) == t[i].period)
      && (forall r :: r in rs ==> exists i :: 0 <= i < |t| && t[i].period == MonthPeriod(r.saleDate))
  {
    var t, ks := MonthlyTable(rs), GroupKeys(rs, ByMonth);
    forall i | 0 <= i < |t| ensures exists r :: r in rs && MonthPeriod(r.saleDate) == t[i].period {
      RowOfKey(rs, i);
      assert ks[i] in ks;
    }
    forall r | r in rs ensures exists i :: 0 <= i < |t| && t[i].period == MonthPeriod(r.saleDate) {
      var k := KeyOf(ByMonth, r);
      assert k in ks;
      var i :| 0 <= i < |ks| && ks[i] == k;
      RowOfKey(rs, i);
    }
  }

  /**
   * Each row's figures are those of the sales dated in its year and month:
   * their revenue, their quantity, and how many of them there are.
   */
  lemma MonthRowFigures(rs: seq<Sale>, i: int)
    requires 0 <= i < |MonthlyTable(rs)|
    ensures
      var row := MonthlyTable(rs)[i];
      var inMonth := SalesInMonth(rs, PeriodYear(row.period), PeriodMonth(row.period));
      && row.revenue == TotalRevenue(inMonth)
      && row.quantity == TotalQuantity(inMonth)
      && row.numSales == |inMonth|
  {
    var row := MonthlyTable(rs)[i];
    RowOfKey(rs, i);
    MonthGroupIsSalesInMonth(rs, row.period);
    GroupSize(rs, ByMonth, Month(row.period));
  }

  /**
   * Monthly grouping conserves totals: the months' revenues add up to the
   * total revenue, their quantities to the items sold, and their sale
   * counts to the number of sales.
   */
  lemma MonthlyTotalsAddUp(rs: seq<Sale>)
    ensures var t := MonthlyTable(rs);
      && Sum(RevenueColumn(t)) == TotalRevenue(rs)
      && Sum(QuantityColumn(t)) == TotalQuantity(rs)
      && Sum(NumSalesColumn(t)) == |rs|
  {
    var t, ks := MonthlyTable(rs), GroupKeys(rs, ByMonth);
    forall i | 0 <= i < |t| ensures ks[i] == Month(t[i].period) {
      RowOfKey(rs, i);
    }
    assert RevenueColumn(t) == KeyTotals(rs, ByMonth, ks, Revenue);
    assert QuantityColumn(t) == KeyTotals(rs, ByMonth, ks, Quantity);
    assert NumSalesColumn(t) == KeyTotals(rs, ByMonth, ks, One);
    GroupingConserves(rs, ByMonth, Revenue);
    GroupingConserves(rs, ByMonth, Quantity);
    GroupSizesAddUp(rs, ByMonth);
  }

  /**
   * Every row carries the same avg_revenue and std_revenue: the mean and
   * the population variance of the table's revenue column.
   */
  lemma MonthlySharedStatistics(rs: seq<Sale>)
    ensures var t := MonthlyTable(rs);
      forall i :: 0 <= i < |t| ==>
        && t[i].avgRevenue == Mean(RevenueColumn(t))
        && t[i].revenueVariance == Variance(RevenueColumn(t))
  {
    var t, ks := MonthlyTable(rs), GroupKeys(rs, ByMonth);
    if t != [] {
      forall i | 0 <= i < |t| ensures ks[i] == Month(t[i].period) {
        RowOfKey(rs, i);
      }
      assert RevenueColumn(t) == KeyTotals(rs, ByMonth, ks, Revenue);
    }
  }

  /** The table is empty exactly when there are no sales. */
  lemma MonthlyEmptyIff(rs: seq<Sale>)
    ensures MonthlyTable(rs) == [] <==> rs == []
  {
    if rs != [] {
      assert KeyOf(ByMonth, rs[0]) in GroupKeys(rs, ByMonth);
    }
  }
}
