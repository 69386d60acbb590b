/**
 * Descriptive statistics over a numeric sample, as numpy computes them:
 * np.sum, np.mean, np.median, np.std (population form, divisor N),
 * np.min and np.max. Samples are integers (revenue in cents); the
 * statistics that divide are real.
 */
module SampleStatistics {

  /** np.sum */
  function Sum(s: seq<int>): (r: int)
  {
    if s == [] then 0 else s[0] + Sum(s[1..])
  }

  /** np.mean; numpy returns NaN on an empty sample, which is not modelled. */
  function Mean(s: seq<int>): (r: real)
    requires |s| > 0
  {
    Sum(s) as real / |s| as real
  }

  /** np.min: the least element of a non-empty sample. */
  function Min(s: seq<int>): (m: int)
    requires |s| > 0
    ensures m in s
    ensures forall i :: 0 <= i < |s| ==> m <= s[i]
  {
    if |s| == 1 then s[0]
    else
      var rest := Min(s[1..]);
      if s[0] <= rest then s[0] else rest
  }

  /** np.max: the greatest element of a non-empty sample. */
  function Max(s: seq<int>): (m: int)
    requires |s| > 0
    ensures m in s
    ensures forall i :: 0 <= i < |s| ==> s[i] <= m
  {
    if |s| == 1 then s[0]
    else
      var rest := Max(s[1..]);
      if s[0] >= rest then s[0] else rest
  }

  predicate Sorted(s: seq<int>)
  {
    forall i, j :: 0 <= i < j < |s| ==> s[i] <= s[j]
  }

  /** Putting an element no larger than the head in front keeps a sequence sorted. */
  lemma ConsSorted(a: int, t: seq<int>)
    requires Sorted(t) && (t == [] || a <= t[0])
    ensures Sorted([a] + t)
  {
    var r := [a] + t;
    forall i, j | 0 <= i < j < |r| ensures r[i] <= r[j] {
      assert r[j] == t[j - 1];
      if i > 0 {
        assert r[i] == t[i - 1];
      } else {
        assert j - 1 == 0 || t[0] <= t[j - 1];
      }
    }
  }

  /** Places x in front of the first element of a sorted sequence that is not smaller. */
  function Insert(x: int, s: seq<int>): (r: seq<int>)
    requires Sorted(s)
    ensures Sorted(r)
    ensures multiset(r) == multiset(s) + multiset{x}
    ensures |r| > 0 && (r[0] == x || (s != [] && r[0] == s[0]))
  {
    if s == [] || x <= s[0] then
      ConsSorted(x, s);
      [x] + s
    else
      var rest := Insert(x, s[1..]);
      assert s == [s[0]] + s[1..];
      ConsSorted(s[0], rest);
      [s[0]] + rest
  }

  /** The ascending order np.median takes its middle element(s) from. */
  function Sort(s: seq<int>): (r: seq<int>)
    ensures Sorted(r)
    ensures multiset(r) == multiset(s)
  {
    if s == [] then []
    else
      assert s == [s[0]] + s[1..];
      Insert(s[0], Sort(s[1..]))
  }

  /**
   * np.median: the middle element of the sorted sample when its length is
   * odd, the mean of the two middle elements when it is even.
   */
  function Median(s: seq<int>): (r: real)
    requires |s| > 0
    ensures Min(s) as real <= r <= Max(s) as real
  {
    var t := Sort(s);
    assert |t| == |multiset(t)| == |multiset(s)| == |s|;
    var n := |t|;
    SortedElementsComeFromSample(s, n / 2);
    if n % 2 == 1 then t[n / 2] as real
    else
      SortedElementsComeFromSample(s, n / 2 - 1);
      (t[n / 2 - 1] + t[n / 2]) as real / 2.0
  }

  function Square(x: int): (r: int)
  {
    x * x
  }

  /**
   * Sum of the squared deviations of the sample from its mean, scaled by
   * n * n to stay within the integers: the sum over x of (n * x - total)^2,
   * where total is the sample's sum and n its length.
   */
  function ScaledDeviations(s: seq<int>, total: int, n: int): (r: int)
  {
    if s == [] then 0 else Square(n * s[0] - total) + ScaledDeviations(s[1..], total, n)
  }

  /**
   * The population variance, the square of np.std with its default ddof=0:
   * the squared deviations from the mean divided by N, not N - 1. Since
   * (x - total / N)^2 == (N * x - total)^2 / N^2, this is the scaled sum
   * divided by N^3.
   */
  function Variance(s: seq<int>): (r: real)
    requires |s| > 0
    ensures r >= 0.0
  {
    var n := |s|;
    ScaledDeviationsNonNegative(s, Sum(s), n);
    ScaledDeviations(s, Sum(s), n) as real / (n * n * n) as real
  }

  predicate AllEqual(s: seq<int>)
  {
    forall i, j :: 0 <= i < |s| && 0 <= j < |s| ==> s[i] == s[j]
  }

  // ---------------------------------------------------------------------
  // Properties of the statistics
  // ---------------------------------------------------------------------

  lemma {:induction false} SumBounds(s: seq<int>, lo: int, hi: int)
    requires forall i :: 0 <= i < |s| ==> lo <= s[i] <= hi
    ensures |s| * lo <= Sum(s) <= |s| * hi
  {
    if s != [] {
      SumBounds(s[1..], lo, hi);
    }
  }

  /** The mean lies between the least and the greatest element. */
  lemma MeanBounds(s: seq<int>)
    requires |s| > 0
    ensures Min(s) as real <= Mean(s) <= Max(s) as real
  {
    SumBounds(s, Min(s), Max(s));
    QuotientBounds(Sum(s), |s|, Min(s), Max(s));
  }

  lemma QuotientBounds(total: int, n: int, lo: int, hi: int)
    requires n > 0 && n * lo <= total <= n * hi
    ensures lo as real <= total as real / n as real <= hi as real
  {
    var q := total as real / n as real;
    assert q * n as real == total as real;
  }

  /** The mean times the number of elements gives back the sum. */
  lemma MeanTimesCount(s: seq<int>)
    requires |s| > 0
    ensures Mean(s) * |s| as real == Sum(s) as real
  {
  }

  lemma SortedElementsComeFromSample(s: seq<int>, k: int)
    requires 0 <= k < |Sort(s)|
    ensures Sort(s)[k] in s
  {
    var t := Sort(s);
    assert t[k] in multiset(t);
  }

  /** The median lies between the least and the greatest element. */
  lemma MedianBounds(s: seq<int>)
    requires |s| > 0
    ensures Min(s) as real <= Median(s) <= Max(s) as real
  {
    // Median's own contract.
  }

  /** The head of a sorted sequence is its least element. */
  lemma SortedHeadIsLeast(a: seq<int>, x: int)
    requires Sorted(a) && x in a
    ensures a[0] <= x
  {
    var i :| 0 <= i < |a| && a[i] == x;
    assert i == 0 || a[0] <= a[i];
  }

  /** Two sorted sequences with the same elements start alike. */
  lemma SameHead(a: seq<int>, b: seq<int>)
    requires Sorted(a) && Sorted(b) && a != []
    requires multiset(a) == multiset(b)
    ensures b != [] && a[0] == b[0]
  {
    assert |multiset(b)| == |multiset(a)|;
    assert a[0] in multiset(a) && b[0] in multiset(b);
    SortedHeadIsLeast(a, b[0]);
    SortedHeadIsLeast(b, a[0]);
  }

  /** Dropping equal heads leaves tails with the same elements. */
  lemma SameTail(a: seq<int>, b: seq<int>)
    requires a != [] && b != [] && a[0] == b[0]
    requires multiset(a) == multiset(b)
    ensures multiset(a[1..]) == multiset(b[1..])
  {
    assert a == [a[0]] + a[1..];
    assert b == [b[0]] + b[1..];
    assert multiset(a[1..]) == multiset(a) - multiset{a[0]};
    assert multiset(b[1..]) == multiset(b) - multiset{b[0]};
  }

  /** Two sorted sequences with the same elements are equal. */
  lemma {:induction false} SortedUnique(a: seq<int>, b: seq<int>)
    requires Sorted(a) && Sorted(b)
    requires multiset(a) == multiset(b)
    ensures a == b
  {
    if a == [] {
      assert |multiset(b)| == 0;
    } else {
      SameHead(a, b);
      SameTail(a, b);
      SortedTail(a);
      SortedTail(b);
      SortedUnique(a[1..], b[1..]);
      assert a == [a[0]] + a[1..];
      assert b == [b[0]] + b[1..];
    }
  }

  lemma SortedTail(a: seq<int>)
    requires Sorted(a) && a != []
    ensures Sorted(a[1..])
  {
    forall i, j | 0 <= i < j < |a| - 1 ensures a[1..][i] <= a[1..][j] {
      assert a[1..][i] == a[i + 1] && a[1..][j] == a[j + 1];
    }
  }

  /** The median depends only on the values, not on their order in the sample. */
  lemma MedianIgnoresOrder(s: seq<int>, s': seq<int>)
    requires |s| > 0
    requires multiset(s) == multiset(s')
    ensures |s'| > 0 && Median(s) == Median(s')
  {
    assert |s'| == |multiset(s')| == |multiset(s)| == |s|;
    MedianOfSorted(s', Sort(s));
  }

  /**
   * The median is read off any ascending arrangement of the sample: its
   * middle element for an odd length, the mean of the two middle elements
   * for an even one.
   */
  lemma MedianOfSorted(s: seq<int>, t: seq<int>)
    requires |s| > 0 && Sorted(t) && multiset(t) == multiset(s)
    ensures |t| == |s|
    ensures Median(s) == if |s| % 2 == 1 then t[|s| / 2] as real
                         else (t[|s| / 2 - 1] + t[|s| / 2]) as real / 2.0
  {
    assert |t| == |multiset(t)| == |multiset(s)| == |s|;
    SortedUnique(Sort(s), t);
  }

  lemma SquareNonNegative(x: int)
    ensures Square(x) >= 0
  {
    if x < 0 {
      assert Square(x) == (-x) * (-x);
    }
  }

  lemma {:induction false} ScaledDeviationsNonNegative(s: seq<int>, total: int, n: int)
    ensures ScaledDeviations(s, total, n) >= 0
  {
    if s != [] {
      ScaledDeviationsNonNegative(s[1..], total, n);
      SquareNonNegative(n * s[0] - total);
    }
  }

  /** The population variance is never negative. */
  lemma VarianceNonNegative(s: seq<int>)
    requires |s| > 0
    ensures Variance(s) >= 0.0
  {
    // Variance's own contract.
  }

  lemma SquareZero(x: int)
    ensures Square(x) == 0 <==> x == 0
  {
  }

  /** x is the mean of a sample of n elements summing to total. */
  predicate AtMean(x: int, total: int, n: int)
  {
    n * x == total
  }

  /** The scaled deviations vanish exactly when every element sits at the mean. */
  lemma {:induction false} ScaledDeviationsZero(s: seq<int>, total: int, n: int)
    ensures ScaledDeviations(s, total, n) == 0 <==> forall i :: 0 <= i < |s| ==> AtMean(s[i], total, n)
  {
    if s != [] {
      var rest := s[1..];
      ScaledDeviationsNonNegative(rest, total, n);
      ScaledDeviationsZero(rest, total, n);
      SquareZero(n * s[0] - total);
      assert (forall i :: 0 <= i < |s| ==> AtMean(s[i], total, n))
         <==> AtMean(s[0], total, n) && (forall i :: 0 <= i < |rest| ==> AtMean(rest[i], total, n)) by {
        if forall i :: 0 <= i < |rest| ==> AtMean(rest[i], total, n) {
          forall i | 0 < i < |s| ensures AtMean(s[i], total, n) {
            assert s[i] == rest[i - 1];
          }
        }
      }
    }
  }

  lemma {:induction false} SumOfConstant(s: seq<int>, c: int)
    requires forall i :: 0 <= i < |s| ==> s[i] == c
    ensures Sum(s) == |s| * c
  {
    if s != [] {
      SumOfConstant(s[1..], c);
    }
  }

  lemma Cancel(n: int, a: int, b: int)
    requires n > 0 && n * a == n * b
    ensures a == b
  {
  }

  /** The population variance is zero exactly when every element is the same. */
  lemma VarianceZeroIffConstant(s: seq<int>)
    requires |s| > 0
    ensures Variance(s) == 0.0 <==> AllEqual(s)
  {
    var n, total := |s|, Sum(s);
    ScaledDeviationsZero(s, total, n);
    assert Variance(s) == 0.0 <==> ScaledDeviations(s, total, n) == 0;
    if AllEqual(s) {
      SumOfConstant(s, s[0]);
    }
    if ScaledDeviations(s, total, n) == 0 {
      forall i, j | 0 <= i < n && 0 <= j < n ensures s[i] == s[j] {
        assert AtMean(s[i], total, n) && AtMean(s[j], total, n);
        Cancel(n, s[i], s[j]);
      }
    }
  }

  /** The sum over the sample of the squared distance from m, computed over the reals. */
  function SqDev(s: seq<int>, m: real): (r: real)
    ensures r >= 0.0
  {
    if s == [] then 0.0
    else (s[0] as real - m) * (s[0] as real - m) + SqDev(s[1..], m)
  }

  /** n * x - total is n times the distance of x from total / n. */
  lemma ScaledSquare(x: int, total: int, n: int)
    requires n > 0
    ensures var d := x as real - total as real / n as real;
      Square(n * x - total) as real == (n * n) as real * (d * d)
  {
    var m := total as real / n as real;
    var d := x as real - m;
    var nr := n as real;
    assert m * nr == total as real;
    assert (n * x - total) as real == nr * d;
    assert Square(n * x - total) as real == (n * x - total) as real * (n * x - total) as real;
    assert (nr * d) * (nr * d) == (nr * nr) * (d * d);
    assert (n * n) as real == nr * nr;
  }

  /** If a is b + c, b is k * x and c is k * y, then a is k * (x + y). */
  lemma ScaledSum(a: real, b: real, c: real, k: real, x: real, y: real)
    requires a == b + c && b == k * x && c == k * y
    ensures a == k * (x + y)
  {
  }

  /** Dividing k * k * a by k * k * k leaves a / k. */
  lemma CancelSquare(k: real, a: real)
    requires k > 0.0
    ensures ((k * k) * a) / ((k * k) * k) == a / k
  {
    var q := a / k;
    assert q * k == a;
    assert (k * k) * a == ((k * k) * k) * q;
  }

  /** The scaled deviations are n * n times the real squared deviations from total / n. */
  lemma {:induction false} ScaledDeviationsAsReal(s: seq<int>, total: int, n: int)
    requires n > 0
    ensures ScaledDeviations(s, total, n) as real == (n * n) as real * SqDev(s, total as real / n as real)
  {
    var m := total as real / n as real;
    if s != [] {
      var k := (n * n) as real;
      var d := s[0] as real - m;
      var a := ScaledDeviations(s, total, n) as real;
      var b := Square(n * s[0] - total) as real;
      var c := ScaledDeviations(s[1..], total, n) as real;
      var y := SqDev(s[1..], m);
      assert a == b + c;
      assert b == k * (d * d) by {
        ScaledSquare(s[0], total, n);
      }
      assert c == k * y by {
        ScaledDeviationsAsReal(s[1..], total, n);
      }
      ScaledSum(a, b, c, k, d * d, y);
      assert SqDev(s, m) == d * d + y;
    } else {
      assert SqDev(s, m) == 0.0;
    }
  }

  /**
   * np.std with ddof=0, squared: the squared deviations from the mean
   * divided by N, the sample size (not N - 1).
   */
  lemma VarianceIsPopulationVariance(s: seq<int>)
    requires |s| > 0
    ensures Variance(s) == SqDev(s, Mean(s)) / |s| as real
  {
    var n := |s|;
    var nr := n as real;
    var a := SqDev(s, Mean(s));
    ScaledDeviationsAsReal(s, Sum(s), n);
    assert ScaledDeviations(s, Sum(s), n) as real == (nr * nr) * a;
    assert (n * n * n) as real == (nr * nr) * nr;
    CancelSquare(nr, a);
  }

  /** Two values a distance 2 apart have population variance 1 (the sample form would give 2). */
  lemma VarianceOfTwo()
    ensures Variance([1, 3]) == 1.0
  {
    var s := [1, 3];
    assert s[1..] == [3];
    assert Sum(s) == 4;
    assert ScaledDeviations(s, 4, 2) == 8;
  }

  // ---------------------------------------------------------------------
  // The summary the report prints
  // ---------------------------------------------------------------------

  /**
   * The statistics printed for a sample: sum, mean, median, the square of
   * the population standard deviation, min and max.
   */
  datatype Summary = Summary(sum: int, mean: real, median: real, variance: real, min: int, max: int)

  function Describe(s: seq<int>): (r: Summary)
    requires |s| > 0
    ensures r.min in s && r.max in s
    ensures forall i :: 0 <= i < |s| ==> r.min <= s[i] <= r.max
    ensures r.median == Median(s)
    ensures r.min as real <= r.median <= r.max as real
    ensures r.min as real <= r.mean <= r.max as real
    ensures r.sum == Sum(s)
    ensures r.variance >= 0.0
    ensures r.variance == 0.0 <==> AllEqual(s)
    ensures r.mean == r.sum as real / |s| as real
    ensures r.variance == SqDev(s, r.mean) / |s| as real
  {
    var mean, variance := Mean(s), Variance(s);
    assert Min(s) as real <= mean <= Max(s) as real by {
      MeanBounds(s);
    }
    assert variance == SqDev(s, mean) / |s| as real by {
      VarianceIsPopulationVariance(s);
    }
    assert variance == 0.0 <==> AllEqual(s) by {
      VarianceZeroIffConstant(s);
    }
    Summary(Sum(s), mean, Median(s), variance, Min(s), Max(s))
  }
}
