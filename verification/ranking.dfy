/**
 * SalesAnalyzer.find_best_selling_products: revenue, quantity, number of
 * sales and mean unit price per product, sorted by revenue, highest first,
 * and cut to the first top_n rows.
 *
 * pandas' sort_values uses a sort that is not stable, so nothing here
 * promises an order among products with equal revenue; the model sorts
 * one particular way and its contracts speak only of what every
 * descending sort shares.
 */
module ProductRanking {
  import opened SampleStatistics
  import opened SalesRecords
  import opened Grouping

  /** One row of the product table, indexed by product name. */
  datatype ProductRow = ProductRow(
    product: string,
    revenue: int,
    quantity: int,
    numSales: int,
    avgPrice: real)

  lemma ProductKeysAreProducts(rs: seq<Sale>)
    ensures forall k :: k in GroupKeys(rs, ByProduct) ==> k.Product?
  {
    forall k | k in GroupKeys(rs, ByProduct) ensures k.Product? {
      var r :| r in rs && KeyOf(ByProduct, r) == k;
    }
  }

  /**
   * The aggregate of one product: revenue summed, quantity summed, ids
   * counted and the unweighted mean of the unit prices.
   */
  function ProductRowOf(rs: seq<Sale>, name: string): (row: ProductRow)
    requires Product(name) in GroupKeys(rs, ByProduct)
    ensures row.product == name
  {
    var m := Members(rs, ByProduct, Product(name));
    MembersNonEmpty(rs, ByProduct, Product(name));
    ProductRow(name, SumOf(m, Revenue), SumOf(m, Quantity), SumOf(m, One), Mean(Column(m, Price)))
  }

  /** groupby('product').agg(...): one row per distinct product, by ascending name. */
  function ProductStats(rs: seq<Sale>): (t: seq<ProductRow>)
    ensures |t| == |GroupKeys(rs, ByProduct)|
    ensures forall i :: 0 <= i < |t| ==> GroupKeys(rs, ByProduct)[i] == Product(t[i].product)
  {
    var ks := GroupKeys(rs, ByProduct);
    ProductKeysAreProducts(rs);
    var t := seq(|ks|, i requires 0 <= i < |ks| => assert ks[i] in ks; ProductRowOf(rs, ks[i].name));
    assert forall i :: 0 <= i < |t| ==> ks[i].Product? && t[i].product == ks[i].name by {
      forall i | 0 <= i < |t| ensures ks[i].Product? && t[i].product == ks[i].name {
        assert ks[i] in ks;
      }
    }
    t
  }

  /** Each row of the product table is the aggregate of its product. */
  lemma ProductStatsRows(rs: seq<Sale>, i: int)
    requires 0 <= i < |ProductStats(rs)|
    ensures var row := ProductStats(rs)[i];
      Product(row.product) in GroupKeys(rs, ByProduct) && row == ProductRowOf(rs, row.product)
  {
    var ks := GroupKeys(rs, ByProduct);
    assert ks[i] in ks;
  }

  predicate NonIncreasing(t: seq<ProductRow>)
  {
    forall i, j :: 0 <= i < j < |t| ==> t[i].revenue >= t[j].revenue
  }

  /** Putting a row earning at least the head's revenue in front keeps the order. */
  lemma ConsNonIncreasing(row: ProductRow, t: seq<ProductRow>)
    requires NonIncreasing(t) && (t == [] || row.revenue >= t[0].revenue)
    ensures NonIncreasing([row] + t)
  {
    var r := [row] + t;
    forall i, j | 0 <= i < j < |r| ensures r[i].revenue >= r[j].revenue {
      assert r[j] == t[j - 1];
      if i > 0 {
        assert r[i] == t[i - 1];
      } else {
        assert j - 1 == 0 || t[0].revenue >= t[j - 1].revenue;
      }
    }
  }

  function InsertByRevenue(row: ProductRow, t: seq<ProductRow>): (r: seq<ProductRow>)
    requires NonIncreasing(t)
    ensures NonIncreasing(r)
    ensures multiset(r) == multiset(t) + multiset{row}
    ensures |r| > 0 && (r[0] == row || (t != [] && r[0] == t[0]))
  {
    if t == [] || row.revenue >= t[0].revenue then
      ConsNonIncreasing(row, t);
      [row] + t
    else
      var rest := InsertByRevenue(row, t[1..]);
      assert t == [t[0]] + t[1..];
      ConsNonIncreasing(t[0], rest);
      [t[0]] + rest
  }

  /** sort_values('revenue', ascending=False): a descending rearrangement of the rows. */
  function SortByRevenue(t: seq<ProductRow>): (r: seq<ProductRow>)
    ensures NonIncreasing(r)
    ensures multiset(r) == multiset(t)
  {
    if t == [] then []
    else
      assert t == [t[0]] + t[1..];
      InsertByRevenue(t[0], SortByRevenue(t[1..]))
  }

  /**
   * DataFrame.head(n): the first n rows, or every row when there are fewer;
   * for a negative n, every row except the last -n.
   */
  function Head<T>(t: seq<T>, n: int): (r: seq<T>)
    ensures |r| == if n >= 0 then (if n <= |t| then n else |t|) else (if |t| + n >= 0 then |t| + n else 0)
    ensures r == t[..|r|]
  {
    if n >= 0 then (if n <= |t| then t[..n] else t)
    else if |t| + n >= 0 then t[..|t| + n]
    else []
  }

  /**
   * What find_best_selling_products returns: some of the product rows,
   * highest revenue first.
   */
  function BestSellers(rs: seq<Sale>, topN: int): (r: seq<ProductRow>)
    ensures NonIncreasing(r)
    ensures multiset(r) <= multiset(ProductStats(rs))
  {
    var sorted := SortByRevenue(ProductStats(rs));
    var r := Head(sorted, topN);
    PrefixMultiset(sorted, |r|);
    r
  }

  /** The rows of a prefix are some of the rows of the whole. */
  lemma PrefixMultiset<T>(t: seq<T>, k: nat)
    requires k <= |t|
    ensures multiset(t[..k]) <= multiset(t)
  {
    assert t == t[..k] + t[k..];
  }

  // ---------------------------------------------------------------------
  // Properties
  // ---------------------------------------------------------------------

  /**
   * A product's row holds the figures of that product's sales: their
   * revenue, their quantity and how many of them there are.
   */
  lemma ProductRowFigures(rs: seq<Sale>, name: string)
    requires Product(name) in GroupKeys(rs, ByProduct)
    ensures
      var row, m := ProductRowOf(rs, name), Members(rs, ByProduct, Product(name));
      && |m| > 0
      && (forall s :: s in m <==> s in rs && s.product == name)
      && row.revenue == TotalRevenue(m)
      && row.quantity == TotalQuantity(m)
      && row.numSales == |m|
  {
    var m := Members(rs, ByProduct, Product(name));
    MembersNonEmpty(rs, ByProduct, Product(name));
    forall s ensures s in m <==> s in rs && s.product == name {
      assert s in m <==> multiset(m)[s] > 0;
    }
    GroupSize(rs, ByProduct, Product(name));
  }

  /**
   * A product's avg_price is the unweighted mean of its sales' unit prices
   * (every sale weighs the same, whatever its quantity), so it lies between
   * the least and the greatest of them.
   */
  lemma ProductAveragePrice(rs: seq<Sale>, name: string)
    requires Product(name) in GroupKeys(rs, ByProduct)
    ensures
      var row, m := ProductRowOf(rs, name), Members(rs, ByProduct, Product(name));
      var prices := Column(m, Price);
      && |prices| > 0
      && row.avgPrice == Mean(prices)
      && Min(prices) as real <= row.avgPrice <= Max(prices) as real
  {
    var m := Members(rs, ByProduct, Product(name));
    var prices := Column(m, Price);
    MembersNonEmpty(rs, ByProduct, Product(name));
    assert ProductRowOf(rs, name).avgPrice == Mean(prices);
    MeanBounds(prices);
  }

  function ProductRevenueColumn(t: seq<ProductRow>): (c: seq<int>)
    ensures |c| == |t| && forall i :: 0 <= i < |t| ==> c[i] == t[i].revenue
  {
    seq(|t|, i requires 0 <= i < |t| => t[i].revenue)
  }

  function ProductNumSalesColumn(t: seq<ProductRow>): (c: seq<int>)
    ensures |c| == |t| && forall i :: 0 <= i < |t| ==> c[i] == t[i].numSales
  {
    seq(|t|, i requires 0 <= i < |t| => t[i].numSales)
  }

  /** The product table's revenues add up to the total revenue. */
  lemma ProductTotalsAddUp(rs: seq<Sale>)
    ensures var t := ProductStats(rs);
      && Sum(ProductRevenueColumn(t)) == TotalRevenue(rs)
      && Sum(ProductNumSalesColumn(t)) == |rs|
  {
    var t, ks := ProductStats(rs), GroupKeys(rs, ByProduct);
    assert ProductRevenueColumn(t) == KeyTotals(rs, ByProduct, ks, Revenue);
    assert ProductNumSalesColumn(t) == KeyTotals(rs, ByProduct, ks, One);
    GroupingConserves(rs, ByProduct, Revenue);
    GroupSizesAddUp(rs, ByProduct);
  }

  lemma {:induction false} DistinctCountsAtMostOne<T>(s: seq<T>)
    requires forall i, j :: 0 <= i < j < |s| ==> s[i] != s[j]
    ensures forall x :: multiset(s)[x] <= 1
  {
    if s != [] {
      DistinctCountsAtMostOne(s[1..]);
      assert s == [s[0]] + s[1..];
      assert s[0] !in s[1..];
    }
  }

  lemma RepeatCountsTwice<T>(s: seq<T>, i: int, j: int)
    requires 0 <= i < j < |s| && s[i] == s[j]
    ensures multiset(s)[s[i]] >= 2
  {
    assert s == s[..j] + s[j..];
    assert s[i] in s[..j];
    assert s[j] in s[j..];
  }

  /** Every row is the aggregate of a product that some sale names. */
  predicate AggregatesOf(rs: seq<Sale>, t: seq<ProductRow>)
  {
    forall i :: 0 <= i < |t| ==>
      Product(t[i].product) in GroupKeys(rs, ByProduct) && t[i] == ProductRowOf(rs, t[i].product)
  }

  predicate DistinctProducts(t: seq<ProductRow>)
  {
    forall i, j :: 0 <= i < j < |t| ==> t[i].product != t[j].product
  }

  lemma PrefixKeepsRows(rs: seq<Sale>, t: seq<ProductRow>, m: int)
    requires AggregatesOf(rs, t) && DistinctProducts(t) && 0 <= m <= |t|
    ensures AggregatesOf(rs, t[..m]) && DistinctProducts(t[..m])
  {
    assert forall i :: 0 <= i < m ==> t[..m][i] == t[i];
  }

  /** Every row of the sorted table is the aggregate of its product, and no product repeats. */
  lemma SortedRows(rs: seq<Sale>)
    ensures var sorted := SortByRevenue(ProductStats(rs));
      AggregatesOf(rs, sorted) && DistinctProducts(sorted)
  {
    var all, ks := ProductStats(rs), GroupKeys(rs, ByProduct);
    var sorted := SortByRevenue(all);
    forall i | 0 <= i < |sorted|
      ensures Product(sorted[i].product) in ks && sorted[i] == ProductRowOf(rs, sorted[i].product)
    {
      assert sorted[i] in multiset(all);
      var j :| 0 <= j < |all| && all[j] == sorted[i];
      ProductStatsRows(rs, j);
    }
    IncreasingIsDistinct(ks);
    assert forall i, j :: 0 <= i < j < |all| ==> all[i] != all[j] by {
      forall i, j | 0 <= i < j < |all| ensures all[i] != all[j] {
        assert ks[i] != ks[j];
      }
    }
    DistinctCountsAtMostOne(all);
    forall i, j | 0 <= i < j < |sorted| ensures sorted[i].product != sorted[j].product {
      if sorted[i] == sorted[j] {
        RepeatCountsTwice(sorted, i, j);
      }
    }
  }

  /** Cutting a descending rearrangement leaves out nothing that earns more than what it keeps. */
  lemma PrefixIsTop(all: seq<ProductRow>, sorted: seq<ProductRow>, m: int)
    requires NonIncreasing(sorted) && multiset(sorted) == multiset(all)
    requires 0 <= m <= |sorted|
    ensures forall i, j :: 0 <= i < m && 0 <= j < |all| && all[j] !in sorted[..m] ==> all[j].revenue <= sorted[i].revenue
  {
    forall i, j | 0 <= i < m && 0 <= j < |all| && all[j] !in sorted[..m]
      ensures all[j].revenue <= sorted[i].revenue
    {
      assert all[j] in multiset(sorted);
      var k :| 0 <= k < |sorted| && sorted[k] == all[j];
      assert k >= m;
    }
  }

  /**
   * find_best_selling_products(top_n) keeps as many rows as head does of
   * the distinct products, ordered by revenue, highest first.
   */
  lemma BestSellingLengthAndOrder(rs: seq<Sale>, topN: int)
    ensures
      var r := BestSellers(rs, topN);
      var n := |GroupKeys(rs, ByProduct)|;
      && |r| == (if topN >= 0 then (if topN <= n then topN else n) else (if n + topN >= 0 then n + topN else 0))
      && NonIncreasing(r)
  {
    var all := ProductStats(rs);
    var sorted := SortByRevenue(all);
    assert |sorted| == |multiset(sorted)| == |multiset(all)| == |all|;
  }

  /**
   * Each kept row is the aggregate of a product that some sale names, and
   * no product is kept twice.
   */
  lemma BestSellingRows(rs: seq<Sale>, topN: int)
    ensures var r := BestSellers(rs, topN);
      AggregatesOf(rs, r) && DistinctProducts(r)
  {
    var sorted := SortByRevenue(ProductStats(rs));
    var r := BestSellers(rs, topN);
    assert r == sorted[..|r|];
    SortedRows(rs);
    PrefixKeepsRows(rs, sorted, |r|);
  }

  /** No product left out of the ranking earns more than a product kept in it. */
  lemma BestSellingIsTop(rs: seq<Sale>, topN: int)
    ensures
      var all := ProductStats(rs);
      var r := BestSellers(rs, topN);
      forall i, j :: 0 <= i < |r| && 0 <= j < |all| && all[j] !in r ==> all[j].revenue <= r[i].revenue
  {
    var all := ProductStats(rs);
    var sorted := SortByRevenue(all);
    var r := BestSellers(rs, topN);
    assert r == sorted[..|r|];
    PrefixIsTop(all, sorted, |r|);
  }
}
