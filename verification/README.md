# Sales analysis model

A Dafny model of the `SalesAnalyzer` class in `sales_analysis.py`. The
analyzer loads a table of sales (id, product, quantity, unit price, sale
date), lazily, into a frame. From the per-sale revenue, quantity times price,
it derives four things:

- the total revenue;
- a monthly trend table: revenue, quantity and number of sales per calendar
  month, with the mean and the population standard deviation of the monthly
  revenues on every row;
- a product ranking: revenue, quantity, number of sales and mean unit price
  per product, sorted by revenue, highest first, cut to `top_n` rows;
- descriptive statistics of the per-sale revenue: sum, mean, median,
  standard deviation, min and max, plus the item and transaction totals.
  The summary report adds the same statistics over the monthly revenues.

Layout:

- `statistics.dfy` (`SampleStatistics`): what numpy computes here. That is
  sum, mean, a sort-based median, the population variance (divisor N), min,
  max, and the `Describe` summary.
- `records.dfy` (`SalesRecords`): the sale record, prices in integer cents,
  revenue, and the month period (the ordinal pandas gives a `Period('M')`).
- `grouping.dfy` (`Grouping`): `groupby`. Rows are partitioned by month or
  by product, and the keys come out ascending.
- `trends.dfy` (`MonthlyTrends`): `calculate_monthly_trends`.
- `ranking.dfy` (`ProductRanking`): `find_best_selling_products`.
- `analyzer.dfy` (`SalesAnalysis`): `calculate_statistics`, the summary
  report, and the `SalesAnalyzer` class. The class holds the loaded frame,
  its lazy load, and the `revenue` and `year_month` columns the analyses add
  to it.

The pure analyses are functions with lemmas. The class's methods change the
frame and are proved against those functions.

Three behaviours of pandas shape the model:

- `groupby` sorts its keys (pandas' default `sort=True`), so months come out
  chronologically and products by name.
- The default sort of `sort_values` is not stable, so the model promises
  nothing about the order of products with equal revenue.
- `calculate_monthly_trends` copies `avg_revenue` and `std_revenue` onto every
  monthly row, and the model does the same.

## Model

| member | source | states |
|---|---|---|
| SampleStatistics.Sum | sales_analysis.py:44 | np.sum: defined as the total of the sample, recursively over its elements (no contract of its own; SumBounds, MeanTimesCount and SumOfColumn state its properties) |
| SampleStatistics.Mean | sales_analysis.py:104 | np.mean: defined as the sum over the number of elements, N; MeanTimesCount and MeanBounds state its properties |
| SampleStatistics.Median | sales_analysis.py:105 | np.median: the middle element of the ascending order for odd N, the mean of the two middle ones for even N; its contract places it between min and max |
| SampleStatistics.Variance | sales_analysis.py:106 | np.std squared (ddof=0), kept in integers as the scaled deviations over N cubed; its contract gives non-negativity, and VarianceIsPopulationVariance shows it is the squared deviations from the mean over N |
| SampleStatistics.Min | sales_analysis.py:107 | np.min of a non-empty sample is one of its elements and no element is smaller |
| SampleStatistics.Max | sales_analysis.py:108 | np.max of a non-empty sample is one of its elements and no element is larger |
| SampleStatistics.Sort | sales_analysis.py:105 | the ascending order np.median takes its middle element(s) from: sorted, and a permutation of the sample |
| SampleStatistics.MeanBounds | sales_analysis.py:104 | the mean lies between min and max |
| SampleStatistics.MeanTimesCount | sales_analysis.py:104 | the mean times the sample size gives back the sum |
| SampleStatistics.MedianBounds | sales_analysis.py:105 | the median (middle element, or mean of the two middle ones) lies between min and max |
| SampleStatistics.MedianIgnoresOrder | sales_analysis.py:105 | two samples with the same elements have the same median |
| SampleStatistics.MedianOfSorted | sales_analysis.py:105 | for any ascending arrangement of the sample, the median is its middle element (odd length) or the mean of its two middle elements (even length) |
| SampleStatistics.SortedUnique | sales_analysis.py:105 | two sorted sequences with the same elements are equal, so the median does not depend on which sort is used |
| SampleStatistics.VarianceNonNegative | sales_analysis.py:106 | the population variance (np.std squared, ddof=0) is never negative |
| SampleStatistics.VarianceZeroIffConstant | sales_analysis.py:106 | the population variance is zero exactly when all elements are equal |
| SampleStatistics.SqDev | sales_analysis.py:106 | the sum of squared distances of the sample from a given point is never negative |
| SampleStatistics.ScaledDeviationsAsReal | sales_analysis.py:106 | the integer scaled deviations are n squared times the real squared deviations from the mean |
| SampleStatistics.VarianceIsPopulationVariance | sales_analysis.py:106 | the variance is the sum of squared deviations from the mean divided by N (ddof=0), not N - 1 |
| SampleStatistics.VarianceOfTwo | sales_analysis.py:106 | the variance of [1, 3] is 1, where the N - 1 form would give 2 |
| SampleStatistics.Describe | sales_analysis.py:103-108 | sum, mean, median, variance, min and max of a non-empty sample: min and max are elements bounding all others, the mean is the sum over N, the median is np.median's middle value, mean and median lie between min and max, variance is the squared deviations from the mean over N, non-negative and zero iff the sample is constant |
| SalesRecords.Revenue | sales_analysis.py:43 | one sale's revenue, quantity times unit price: non-negative when both are, zero when either is, the unit price for a single item |
| SalesRecords.MonthPeriod | sales_analysis.py:57 | `to_period('M')`: defined as the months since January 1970; PeriodRoundTrip, SamePeriod and PeriodOrderIsChronological state its properties |
| SalesRecords.PeriodRoundTrip | sales_analysis.py:57 | truncating a date to its month period keeps its year and month |
| SalesRecords.PeriodOfParts | sales_analysis.py:57 | every month period is the period of a date in it |
| SalesRecords.SamePeriod | sales_analysis.py:57 | two dates fall in the same period iff they share year and month |
| SalesRecords.PeriodOrderIsChronological | sales_analysis.py:57-60 | period order is chronological order: by year, then month |
| SalesRecords.Column | sales_analysis.py:43 | the revenue array has one entry per row, holding quantity times price |
| SalesRecords.SumOfColumn | sales_analysis.py:43-44 | np.sum of a figure's column is the sum of that figure over the rows |
| SalesRecords.SumOfOne | sales_analysis.py:63 | counting ids counts the rows |
| Grouping.StrLessIrreflexive | sales_analysis.py:82 | no product name sorts before itself |
| Grouping.StrLessTransitive | sales_analysis.py:82 | the order of product names is transitive |
| Grouping.StrLessTotal | sales_analysis.py:82 | any two different product names are ordered one way or the other |
| Grouping.GroupKeys | sales_analysis.py:60 | the groupby index is strictly ascending and holds exactly the keys some row carries |
| Grouping.Members | sales_analysis.py:60-64 | a group holds each row with its key as often as the table does, and no other row |
| Grouping.MembersNonEmpty | sales_analysis.py:60 | no group in the index is empty |
| Grouping.KeyTotals | sales_analysis.py:60-64 | the `'sum'` (and, with One, `'count'`) aggregation: one total per key, in key order, each the sum of the figure over that key's group |
| Grouping.GroupTotalsAddUp | sales_analysis.py:60-64 | over distinct keys covering every row, group sums add up to the table's sum |
| Grouping.GroupingConserves | sales_analysis.py:60-64 | grouping neither loses nor double-counts any per-row figure |
| Grouping.GroupSizesAddUp | sales_analysis.py:63 | the group counts add up to the number of rows |
| MonthlyTrends.MonthlyTable | sales_analysis.py:48-71 | one row per distinct month, periods strictly increasing |
| MonthlyTrends.MonthGroupIsSalesInMonth | sales_analysis.py:57-60 | a month's group is exactly the sales dated in that year and month |
| MonthlyTrends.MonthlyIndex | sales_analysis.py:57-60 | the months are ascending, each is the month of some sale, and every sale's month has a row |
| MonthlyTrends.MonthRowFigures | sales_analysis.py:54-64 | a month's revenue, quantity and num_sales are those of the sales dated in it |
| MonthlyTrends.MonthlyTotalsAddUp | sales_analysis.py:60-64 | monthly revenues add up to total revenue, quantities to items sold, num_sales to the number of sales |
| MonthlyTrends.MonthlySharedStatistics | sales_analysis.py:67-69 | every row carries the mean and the population variance of the monthly revenue column |
| MonthlyTrends.MonthlyEmptyIff | sales_analysis.py:60 | the table is empty exactly when there are no sales |
| ProductRanking.ProductRowOf | sales_analysis.py:82-87 | the aggregate row of a product is labelled with that product |
| ProductRanking.ProductStats | sales_analysis.py:82-87 | one row per distinct product, in the order of the groupby index |
| ProductRanking.ProductStatsRows | sales_analysis.py:82-87 | every row of the product table is the aggregate of its own product |
| ProductRanking.SortByRevenue | sales_analysis.py:90 | sort_values descending: revenues non-increasing, a permutation of the rows |
| ProductRanking.Head | sales_analysis.py:92 | head(n) is a prefix: n rows, all rows when fewer, all but the last -n when n is negative |
| ProductRanking.ProductRowFigures | sales_analysis.py:82-87 | a product's group is exactly its sales (non-empty); revenue and quantity are their sums, num_sales their count |
| ProductRanking.ProductAveragePrice | sales_analysis.py:86 | avg_price is the unweighted mean of the product's unit prices and lies between the least and greatest of them |
| ProductRanking.ProductTotalsAddUp | sales_analysis.py:82-85 | the revenue column of the product table adds up to total revenue and its num_sales column to the number of sales |
| ProductRanking.SortedRows | sales_analysis.py:82-90 | after sorting, every row is still its product's aggregate and no product appears twice |
| ProductRanking.BestSellers | sales_analysis.py:82-92 | the value find_best_selling_products returns: ordered by revenue, highest first, and a sub-multiset of the product table's rows |
| ProductRanking.PrefixIsTop | sales_analysis.py:90-92 | a prefix of a descending rearrangement earns at least as much per row as anything left out |
| ProductRanking.BestSellingLengthAndOrder | sales_analysis.py:90-92 | the result has min(top_n, number of products) rows (head's rule for negative top_n) and is ordered by revenue, highest first |
| ProductRanking.BestSellingRows | sales_analysis.py:82-92 | every kept row is the aggregate of a product that some sale names, with no product twice |
| ProductRanking.BestSellingIsTop | sales_analysis.py:90-92 | no product left out earns more than a product kept |
| SalesAnalysis.StatisticsOf | sales_analysis.py:94-115 | statistics exist iff there are sales; total_revenue is the sum of quantity times price, total_items_sold the sum of quantities, total_transactions the number of sales |
| SalesAnalysis.ColumnValueOfSomeSale | sales_analysis.py:100 | every value of a derived column comes from some sale |
| SalesAnalysis.StatisticsAverages | sales_analysis.py:104-112 | average_sale_value is total_revenue over total_transactions; average quantity and price are the column sums over the number of sales |
| SalesAnalysis.SaleValueBounds | sales_analysis.py:104-108 | min and max sale values are revenues of actual sales bounding every sale's revenue; median_sale_value is the median of the revenues; mean and median lie between min and max |
| SalesAnalysis.SaleValueSpread | sales_analysis.py:106 | the squared std_sale_value is the sales' squared revenue deviations from average_sale_value over N; it is non-negative, and zero exactly when every sale has the same revenue |
| SalesAnalysis.SummaryReportOf | sales_analysis.py:117-173 | a report exists iff there are sales; it then has at least one month and at most ten products |
| SalesAnalysis.ReportIsConsistent | sales_analysis.py:160-167 | monthly revenues add up to total_revenue; best and worst month are the largest and smallest monthly revenues; the printed monthly median is the median of the monthly revenues and lies between them; the monthly variance is non-negative |
| SalesAnalysis.ReportTopProducts | sales_analysis.py:142 | the report's top products are at most ten, ordered by revenue, and no product left out earns more than one kept |
| SalesAnalysis.ReportMonthlyMean | sales_analysis.py:163-165 | the printed monthly mean and std are the avg_revenue and std_revenue on every monthly row |
| SalesAnalysis.Periods | sales_analysis.py:57 | the year_month column: one entry per sale, holding the month period of its date |
| SalesAnalysis.SalesAnalyzer.constructor | sales_analysis.py:14-17 | a new analyzer has no frame loaded |
| SalesAnalysis.SalesAnalyzer.LoadData | sales_analysis.py:19-35 | loading replaces the frame with the table's rows and no derived columns |
| SalesAnalysis.SalesAnalyzer.CalculateTotalRevenue | sales_analysis.py:37-46 | loads if needed, leaves the frame otherwise unchanged, returns the sum of quantity times price |
| SalesAnalysis.SalesAnalyzer.CalculateMonthlyTrends | sales_analysis.py:48-71 | loads if needed; sets the revenue and year_month columns, changing nothing else; returns the monthly table |
| SalesAnalysis.SalesAnalyzer.FindBestSellingProducts | sales_analysis.py:73-92 | loads if needed; sets the revenue column, changing nothing else; returns the ranking cut to top_n |
| SalesAnalysis.SalesAnalyzer.CalculateStatistics | sales_analysis.py:94-115 | loads if needed, leaves the frame otherwise unchanged, returns the statistics (none for an empty table) |
| SalesAnalysis.SalesAnalyzer.GenerateSummaryReport | sales_analysis.py:117-173 | runs the analyses in order and returns the report; an empty table stops at the statistics with only the load done |
| SalesAnalysis.RepeatedAnalyses | sales_analysis.py:37-115 | total_revenue from the statistics equals calculate_total_revenue; a repeated monthly table or ranking equals the first |
| SalesAnalysis.ExampleTotal | sales_analysis.py:43-44 | two laptops at $1000 and five mice at $20 in January 2024 plus one laptop in February bring in $3100 |
| SalesAnalysis.ExampleMonthlyTable | sales_analysis.py:48-71 | in that example, January 2024 has $2100 over 2 sales and February $1000 over 1 sale |
| SalesAnalysis.ExampleBestSellers | sales_analysis.py:73-92 | in that example, the top product is Laptop, with $3000 over 2 sales |

## Left out

- Loading (`load_data`): the SQLite connection, the query and its `ORDER BY
  sale_date`, and `pd.to_datetime` are not modelled. The analyzer receives
  the rows as the query returns them, with dates already split into year,
  month and day.
- Printing: the report's console output, its two-decimal formatting and
  the `datetime.now()` timestamp are left out. The figures it prints are
  modelled.
- SalesAnalysis.StatisticsOf: std_sale_value is held as its square, the
  population variance, because the square root is not modelled. The same
  holds for the monthly std_revenue (MonthlyTrends.MonthlyTable) and the
  printed monthly std.
- Floating point: prices are integer cents. Sums are exact integers, and
  means, medians and variances are exact reals, so rounding error is not
  modelled. Neither is int64 overflow.
- ProductRanking.SortByRevenue: sorts one particular way. Its contracts and
  the lemmas about the ranking say nothing about the order of products with
  equal revenue, because pandas' default sort is not stable.
- Empty input: numpy's NaN mean and median of an empty array are not
  modelled. Statistics and the report are `None` where `np.min` would
  raise. The monthly and product tables of an empty table are empty.
- `generate_summary_report` returns the statistics, the top ten and the
  monthly table. The model's report also carries the monthly revenue
  statistics the method prints.
- dashboard.py, visualizations.py, init_database.py and main.py are not
  part of this model. They are UI, chart rendering, sample-data generation
  and orchestration.
