/**
 * DataFrame.groupby as the analyzer uses it: the rows are partitioned by
 * a key (the calendar month of the sale, or the product), and the distinct
 * keys come out in ascending order, which is pandas' default (sort=True).
 */
module Grouping {
  import opened SampleStatistics
  import opened SalesRecords

  /**
   * Python's string order: lexicographic by code point, a proper prefix
   * before any longer string.
   */
  predicate StrLess(a: string, b: string)
  {
    if a == [] then b != []
    else if b == [] then false
    else if a[0] == b[0] then StrLess(a[1..], b[1..])
    else a[0] < b[0]
  }

  lemma {:induction false} StrLessIrreflexive(a: string)
    ensures !StrLess(a, a)
  {
    if a != [] {
      StrLessIrreflexive(a[1..]);
    }
  }

  lemma {:induction false} StrLessTransitive(a: string, b: string, c: string)
    requires StrLess(a, b) && StrLess(b, c)
    ensures StrLess(a, c)
  {
    if a != [] && b != [] && c != [] && a[0] == b[0] == c[0] {
      StrLessTransitive(a[1..], b[1..], c[1..]);
    }
  }

  lemma {:induction false} StrLessTotal(a: string, b: string)
    requires a != b
    ensures StrLess(a, b) || StrLess(b, a)
  {
    if a != [] && b != [] && a[0] == b[0] {
      assert a == [a[0]] + a[1..] && b == [b[0]] + b[1..];
      StrLessTotal(a[1..], b[1..]);
    }
  }

  /** The column a grouping is keyed by. */
  datatype Dimension = ByMonth | ByProduct

  /** A group key: a month period, or a product name. */
  datatype GroupKey = Month(period: int) | Product(name: string)

  function KeyOf(d: Dimension, s: Sale): (k: GroupKey)
  {
    match d
    case ByMonth => Month(MonthPeriod(s.saleDate))
    case ByProduct => Product(s.product)
  }

  /**
   * The order groupby sorts keys in: periods chronologically, products by
   * name. One grouping never mixes the two; months are put first so that
   * the order is total.
   */
  predicate KeyLess(a: GroupKey, b: GroupKey)
  {
    match (a, b)
    case (Month(p), Month(q)) => p < q
    case (Product(x), Product(y)) => StrLess(x, y)
    case (Month(_), Product(_)) => true
    case (Product(_), Month(_)) => false
  }

  lemma KeyLessIrreflexive(a: GroupKey)
    ensures !KeyLess(a, a)
  {
    if a.Product? {
      StrLessIrreflexive(a.name);
    }
  }

  lemma KeyLessTransitive(a: GroupKey, b: GroupKey, c: GroupKey)
    requires KeyLess(a, b) && KeyLess(b, c)
    ensures KeyLess(a, c)
  {
    if a.Product? && b.Product? && c.Product? {
      StrLessTransitive(a.name, b.name, c.name);
    }
  }

  lemma KeyLessTotal(a: GroupKey, b: GroupKey)
    requires a != b
    ensures KeyLess(a, b) || KeyLess(b, a)
  {
    if a.Product? && b.Product? {
      StrLessTotal(a.name, b.name);
    }
  }

  predicate StrictlyIncreasing(ks: seq<GroupKey>)
  {
    forall i, j :: 0 <= i < j < |ks| ==> KeyLess(ks[i], ks[j])
  }

  predicate Distinct(ks: seq<GroupKey>)
  {
    forall i, j :: 0 <= i < j < |ks| ==> ks[i] != ks[j]
  }

  lemma IncreasingIsDistinct(ks: seq<GroupKey>)
    requires StrictlyIncreasing(ks)
    ensures Distinct(ks)
  {
    forall i, j | 0 <= i < j < |ks| ensures ks[i] != ks[j] {
      KeyLessIrreflexive(ks[i]);
    }
  }

  /** Adds a key to an ascending list of distinct keys, unless it is already there. */
  function InsertKey(ks: seq<GroupKey>, k: GroupKey): (r: seq<GroupKey>)
    requires StrictlyIncreasing(ks)
    ensures StrictlyIncreasing(r)
    ensures forall x :: x in r <==> x in ks || x == k
  {
    if ks == [] then [k]
    else if k == ks[0] then ks
    else if KeyLess(k, ks[0]) then
      assert forall j :: 0 <= j < |ks| ==> KeyLess(k, ks[j]) by {
        forall j | 0 < j < |ks| ensures KeyLess(k, ks[j]) {
          KeyLessTransitive(k, ks[0], ks[j]);
        }
      }
      [k] + ks
    else
      KeyLessTotal(k, ks[0]);
      assert ks == [ks[0]] + ks[1..];
      var rest := InsertKey(ks[1..], k);
      assert forall j :: 0 <= j < |rest| ==> KeyLess(ks[0], rest[j]) by {
        forall j | 0 <= j < |rest| ensures KeyLess(ks[0], rest[j]) {
          assert rest[j] in rest;
        }
      }
      [ks[0]] + rest
  }

  /**
   * The distinct keys of the rows under a dimension, ascending: the index
   * that groupby produces.
   */
  function GroupKeys(rs: seq<Sale>, d: Dimension): (ks: seq<GroupKey>)
    ensures StrictlyIncreasing(ks)
    ensures forall k :: k in ks <==> exists r :: r in rs && KeyOf(d, r) == k
  {
    if rs == [] then []
    else
      var ks := InsertKey(GroupKeys(rs[1..], d), KeyOf(d, rs[0]));
      assert forall r :: r in rs <==> r == rs[0] || r in rs[1..] by {
        assert rs == [rs[0]] + rs[1..];
      }
      ks
  }

  /** The rows of one group, in row order. */
  function Members(rs: seq<Sale>, d: Dimension, k: GroupKey): (m: seq<Sale>)
    ensures forall s :: multiset(m)[s] == if KeyOf(d, s) == k then multiset(rs)[s] else 0
  {
    if rs == [] then []
    else
      assert rs == [rs[0]] + rs[1..];
      if KeyOf(d, rs[0]) == k then [rs[0]] + Members(rs[1..], d, k) else Members(rs[1..], d, k)
  }

  /** A key that some row carries has a non-empty group. */
  lemma MembersNonEmpty(rs: seq<Sale>, d: Dimension, k: GroupKey)
    requires k in GroupKeys(rs, d)
    ensures |Members(rs, d, k)| > 0
  {
    var r :| r in rs && KeyOf(d, r) == k;
    assert multiset(Members(rs, d, k))[r] > 0;
  }

  /** The rows outside one group, in row order. */
  function Others(rs: seq<Sale>, d: Dimension, k: GroupKey): (o: seq<Sale>)
    ensures forall r :: r in o ==> r in rs && KeyOf(d, r) != k
  {
    if rs == [] then []
    else if KeyOf(d, rs[0]) == k then Others(rs[1..], d, k)
    else [rs[0]] + Others(rs[1..], d, k)
  }

  /** A group and the rows outside it share out any per-row figure. */
  lemma {:induction false} SumOfSplit(rs: seq<Sale>, d: Dimension, k: GroupKey, f: Sale -> int)
    ensures SumOf(rs, f) == SumOf(Members(rs, d, k), f) + SumOf(Others(rs, d, k), f)
  {
    if rs != [] {
      SumOfSplit(rs[1..], d, k, f);
      var m := Members(rs[1..], d, k);
      var o := Others(rs[1..], d, k);
      if KeyOf(d, rs[0]) == k {
        assert ([rs[0]] + m)[1..] == m;
      } else {
        assert ([rs[0]] + o)[1..] == o;
      }
    }
  }

  /** Removing one group does not change any other group. */
  lemma {:induction false} MembersOfOthers(rs: seq<Sale>, d: Dimension, k: GroupKey, k': GroupKey)
    requires k != k'
    ensures Members(Others(rs, d, k), d, k') == Members(rs, d, k')
  {
    if rs != [] {
      MembersOfOthers(rs[1..], d, k, k');
      if KeyOf(d, rs[0]) != k {
        assert ([rs[0]] + Others(rs[1..], d, k))[1..] == Others(rs[1..], d, k);
      }
    }
  }

  /** Per key, in key order, the sum of a per-row figure over that key's group. */
  function KeyTotals(rs: seq<Sale>, d: Dimension, ks: seq<GroupKey>, f: Sale -> int): (t: seq<int>)
    ensures |t| == |ks|
    ensures forall i :: 0 <= i < |ks| ==> t[i] == SumOf(Members(rs, d, ks[i]), f)
  {
    seq(|ks|, i requires 0 <= i < |ks| => SumOf(Members(rs, d, ks[i]), f))
  }

  /** The first row's key is among keys that cover every row. */
  lemma FirstRowKeyed(rs: seq<Sale>, d: Dimension, ks: seq<GroupKey>)
    requires rs != []
    requires forall r :: r in rs ==> KeyOf(d, r) in ks
    ensures KeyOf(d, rs[0]) in ks
  {
    assert rs[0] in rs;
  }

  /** Rows outside the first key's group are covered by the remaining keys. */
  lemma OthersCovered(rs: seq<Sale>, d: Dimension, ks: seq<GroupKey>)
    requires ks != []
    requires forall r :: r in rs ==> KeyOf(d, r) in ks
    ensures forall r :: r in Others(rs, d, ks[0]) ==> KeyOf(d, r) in ks[1..]
  {
    forall r | r in Others(rs, d, ks[0]) ensures KeyOf(d, r) in ks[1..] {
      assert KeyOf(d, r) in ks;
    }
  }

  /** Removing the first key's group leaves the other keys' totals as they were. */
  lemma TotalsWithoutFirst(rs: seq<Sale>, d: Dimension, ks: seq<GroupKey>, f: Sale -> int)
    requires ks != [] && Distinct(ks)
    ensures KeyTotals(rs, d, ks, f)[1..] == KeyTotals(Others(rs, d, ks[0]), d, ks[1..], f)
  {
    var k, rest := ks[0], ks[1..];
    forall i | 0 <= i < |rest|
      ensures KeyTotals(rs, d, ks, f)[1..][i] == KeyTotals(Others(rs, d, k), d, rest, f)[i]
    {
      assert rest[i] == ks[i + 1] != k;
      MembersOfOthers(rs, d, k, rest[i]);
    }
  }

  /**
   * Grouping neither loses nor double-counts: over distinct keys that
   * cover every row, the group totals add up to the total over all rows.
   */
  lemma {:induction false} GroupTotalsAddUp(rs: seq<Sale>, d: Dimension, ks: seq<GroupKey>, f: Sale -> int)
    requires Distinct(ks)
    requires forall r :: r in rs ==> KeyOf(d, r) in ks
    ensures Sum(KeyTotals(rs, d, ks, f)) == SumOf(rs, f)
    decreases |ks|
  {
    if ks == [] {
      if rs != [] {
        FirstRowKeyed(rs, d, ks);
        assert false;
      }
    } else {
      var others := Others(rs, d, ks[0]);
      OthersCovered(rs, d, ks);
      assert Distinct(ks[1..]);
      GroupTotalsAddUp(others, d, ks[1..], f);
      TotalsWithoutFirst(rs, d, ks, f);
      SumOfSplit(rs, d, ks[0], f);
    }
  }

  /** The groupby index covers every row with distinct keys, so group totals add up. */
  lemma GroupingConserves(rs: seq<Sale>, d: Dimension, f: Sale -> int)
    ensures Sum(KeyTotals(rs, d, GroupKeys(rs, d), f)) == SumOf(rs, f)
  {
    var ks := GroupKeys(rs, d);
    IncreasingIsDistinct(ks);
    GroupTotalsAddUp(rs, d, ks, f);
  }

  /** The group sizes add up to the number of rows. */
  lemma GroupSizesAddUp(rs: seq<Sale>, d: Dimension)
    ensures Sum(KeyTotals(rs, d, GroupKeys(rs, d), One)) == |rs|
  {
    GroupingConserves(rs, d, One);
    SumOfOne(rs);
  }

  /** The size of a group is the sum of One over it. */
  lemma GroupSize(rs: seq<Sale>, d: Dimension, k: GroupKey)
    ensures SumOf(Members(rs, d, k), One) == |Members(rs, d, k)|
  {
    SumOfOne(Members(rs, d, k));
  }
}
