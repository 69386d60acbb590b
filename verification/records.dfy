/**
 * The sales table the analyzer loads: one row per sale with its id,
 * product, quantity, unit price and sale date, and the per-row figures
 * derived from it (revenue, the calendar month of the sale).
 *
 * Prices are held in integer cents, the smallest currency unit, so that
 * revenue and every sum of it are exact.
 */
module SalesRecords {
  import opened SampleStatistics

  type MonthNumber = m: int | 1 <= m <= 12 witness 1
  type DayNumber = d: int | 1 <= d <= 31 witness 1

  /** A naive calendar date, as pd.to_datetime leaves a 'YYYY-MM-DD' string. */
  datatype Date = Date(year: int, month: MonthNumber, day: DayNumber)

  /** One row of the `sales` table; `price` is in cents. */
  datatype Sale = Sale(id: int, product: string, quantity: int, price: int, saleDate: Date)

  /** Revenue of one sale: quantity times unit price. */
  function Revenue(s: Sale): (r: int)
    ensures s.quantity >= 0 && s.price >= 0 ==> r >= 0
    ensures s.quantity == 0 || s.price == 0 ==> r == 0
    ensures s.quantity == 1 ==> r == s.price
  {
    s.quantity * s.price
  }

  function Quantity(s: Sale): (r: int)
  {
    s.quantity
  }

  function Price(s: Sale): (r: int)
  {
    s.price
  }

  /** What `'id': 'count'` adds up per row: ids are never null, so every row counts once. */
  function One(s: Sale): (r: int)
  {
    1
  }

  /**
   * The ordinal of the calendar month a date falls in, as pandas numbers a
   * Period with frequency 'M': months since January 1970.
   */
  function MonthPeriod(d: Date): (p: int)
  {
    (d.year - 1970) * 12 + (d.month - 1)
  }

  /** The year of a month period (floor division, so periods before 1970 work too). */
  function PeriodYear(p: int): (y: int)
  {
    1970 + p / 12
  }

  /** The calendar month of a month period. */
  function PeriodMonth(p: int): (m: MonthNumber)
  {
    p % 12 + 1
  }

  /** Truncating a date to its period keeps its year and month. */
  lemma PeriodRoundTrip(d: Date)
    ensures PeriodYear(MonthPeriod(d)) == d.year
    ensures PeriodMonth(MonthPeriod(d)) == d.month
  {
    var p := MonthPeriod(d);
    assert p == (d.year - 1970) * 12 + (d.month - 1);
  }

  /** Every period is the truncation of a date in it. */
  lemma PeriodOfParts(p: int, day: DayNumber)
    ensures MonthPeriod(Date(PeriodYear(p), PeriodMonth(p), day)) == p
  {
  }

  /** Two dates fall in the same period exactly when they share year and month. */
  lemma SamePeriod(a: Date, b: Date)
    ensures MonthPeriod(a) == MonthPeriod(b) <==> a.year == b.year && a.month == b.month
  {
    if MonthPeriod(a) == MonthPeriod(b) {
      PeriodRoundTrip(a);
      PeriodRoundTrip(b);
    }
  }

  /** Periods are ordered chronologically: by year, then by month. */
  lemma PeriodOrderIsChronological(a: Date, b: Date)
    ensures MonthPeriod(a) < MonthPeriod(b) <==> a.year < b.year || (a.year == b.year && a.month < b.month)
  {
  }

  /** The sum of a per-row figure over a sequence of sales. */
  function SumOf(rs: seq<Sale>, f: Sale -> int): (r: int)
  {
    if rs == [] then 0 else f(rs[0]) + SumOf(rs[1..], f)
  }

  /** The column of a per-row figure, one entry per sale, in row order. */
  function Column(rs: seq<Sale>, f: Sale -> int): (c: seq<int>)
    ensures |c| == |rs|
    ensures forall i :: 0 <= i < |rs| ==> c[i] == f(rs[i])
  {
    seq(|rs|, i requires 0 <= i < |rs| => f(rs[i]))
  }

  /** Adding up a column with np.sum gives the sum of the figure over the rows. */
  lemma {:induction false} SumOfColumn(rs: seq<Sale>, f: Sale -> int)
    ensures Sum(Column(rs, f)) == SumOf(rs, f)
  {
    if rs != [] {
      SumOfColumn(rs[1..], f);
      assert Column(rs, f)[1..] == Column(rs[1..], f);
    }
  }

  /** Counting rows is adding one per row. */
  lemma {:induction false} SumOfOne(rs: seq<Sale>)
    ensures SumOf(rs, One) == |rs|
  {
    if rs != [] {
      SumOfOne(rs[1..]);
    }
  }

  /** The revenue of a batch: the sum over its sales of quantity times price. */
  function TotalRevenue(rs: seq<Sale>): (r: int)
  {
    SumOf(rs, Revenue)
  }

  /** The number of items a batch sold. */
  function TotalQuantity(rs: seq<Sale>): (r: int)
  {
    SumOf(rs, Quantity)
  }
}
