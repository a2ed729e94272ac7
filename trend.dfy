/**
 * display_charts: the rows of one unit and level, sorted by date, the latest
 * ten of them, and whether there is anything to chart at all.
 */
module Trend {
  import opened Options
  import opened DateOrder
  import opened Sheet
  import opened Catalog

  /** How many of the latest attempts the chart shows: tail(10). */
  const TrendLength: nat := 10

  function Min(a: int, b: int): int
  {
    if a <= b then a else b
  }

  /** The row mask (df["単元"] == unit) & (df["レベル"] == level). */
  predicate Matches(x: Record, unit: string, level: string)
  {
    x.unit == unit && x.level == level
  }

  /** The rows the mask selects: every matching row as often as the table has it, and nothing else. */
  function Matching(rows: seq<Record>, unit: string, level: string): (r: seq<Record>)
    ensures forall x | x in r :: Matches(x, unit, level)
    ensures forall x | Matches(x, unit, level) :: multiset(r)[x] == multiset(rows)[x]
    ensures multiset(r) <= multiset(rows)
  {
    if rows == [] then []
    else
      assert rows == [rows[0]] + rows[1..];
      (if Matches(rows[0], unit, level) then [rows[0]] else []) + Matching(rows[1..], unit, level)
  }

  /** Nothing is selected exactly when no row of the table has that unit and level. */
  lemma MatchingEmpty(rows: seq<Record>, unit: string, level: string)
    ensures Matching(rows, unit, level) == [] <==> forall x | x in rows :: !Matches(x, unit, level)
  {
    var m := Matching(rows, unit, level);
    if m != [] {
      assert m[0] in multiset(m);
      assert m[0] in rows;
    } else {
      forall x | x in rows
        ensures !Matches(x, unit, level)
      {
        assert x in multiset(rows);
      }
    }
  }

  /** Ascending by date. */
  predicate SortedByDate(s: seq<Record>)
  {
    forall i, j | 0 <= i < j < |s| :: DateLeq(s[i].date, s[j].date)
  }

  /** A date no later than the first of a sorted sequence is no later than any of it. */
  lemma BelowSorted(x: Record, s: seq<Record>)
    requires SortedByDate(s) && s != [] && DateLeq(x.date, s[0].date)
    ensures forall y | y in s :: DateLeq(x.date, y.date)
  {
    forall y | y in s
      ensures DateLeq(x.date, y.date)
    {
      var j :| 0 <= j < |s| && s[j] == y;
      if j > 0 {
        DateLeqTransitive(x.date, s[0].date, y.date);
      }
    }
  }

  /** The head of a sorted sequence is no later than the tail with x inserted, when it is no later than x. */
  lemma HeadBelowInsertion(x: Record, s: seq<Record>, rest: seq<Record>)
    requires SortedByDate(s) && s != [] && DateLeq(s[0].date, x.date)
    requires multiset(rest) == multiset(s[1..]) + multiset{x}
    ensures forall y | y in rest :: DateLeq(s[0].date, y.date)
  {
    forall y | y in rest
      ensures DateLeq(s[0].date, y.date)
    {
      assert y in multiset(rest);
      if y != x {
        assert y in multiset(s[1..]);
        var j :| 0 <= j < |s[1..]| && s[1..][j] == y;
        assert s[j + 1] == y;
      }
    }
  }

  /** The rest of a date-sorted sequence is date-sorted. */
  lemma SortedRest(s: seq<Record>)
    requires SortedByDate(s) && s != []
    ensures SortedByDate(s[1..])
  {
    forall i, j | 0 <= i < j < |s| - 1
      ensures DateLeq(s[1..][i].date, s[1..][j].date)
    {
      assert s[1..][i] == s[i + 1] && s[1..][j] == s[j + 1];
    }
  }

  /** A row no later than every row of a sorted sequence can go in front of it. */
  lemma SortedCons(x: Record, s: seq<Record>)
    requires SortedByDate(s)
    requires forall y | y in s :: DateLeq(x.date, y.date)
    ensures SortedByDate([x] + s)
  {
    forall i, j | 0 <= i < j < |s| + 1
      ensures DateLeq(([x] + s)[i].date, ([x] + s)[j].date)
    {
      if i == 0 {
        assert s[j - 1] in s;
      } else {
        assert ([x] + s)[i] == s[i - 1] && ([x] + s)[j] == s[j - 1];
      }
    }
  }

  /** x placed before the first later row of a sorted sequence. */
  function InsertByDate(x: Record, s: seq<Record>): (r: seq<Record>)
    requires SortedByDate(s)
    ensures SortedByDate(r)
    ensures multiset(r) == multiset(s) + multiset{x}
  {
    if s == [] then [x]
    else if DateLeq(x.date, s[0].date) then
      BelowSorted(x, s);
      SortedCons(x, s);
      [x] + s
    else
      DateLeqTotal(x.date, s[0].date);
      SortedRest(s);
      var rest := InsertByDate(x, s[1..]);
      HeadBelowInsertion(x, s, rest);
      SortedCons(s[0], rest);
      assert s == [s[0]] + s[1..];
      [s[0]] + rest
  }

  /**
   * sort_values("日付"): a rearrangement of the rows in ascending date order.
   * Which of two rows with the same date comes first is this insertion sort's
   * choice; TrendDatesIndependentOfTies shows that nothing the chart's date
   * axis shows depends on it.
   */
  function SortByDate(s: seq<Record>): (r: seq<Record>)
    ensures SortedByDate(r)
    ensures multiset(r) == multiset(s)
  {
    if s == [] then []
    else
      assert s == [s[0]] + s[1..];
      InsertByDate(s[0], SortByDate(s[1..]))
  }

  /** tail(n): the last n elements, or all of them when there are fewer. */
  function Tail<T>(s: seq<T>, n: nat): (r: seq<T>)
    ensures |r| == Min(n, |s|)
    ensures r == s[|s| - |r|..]
  {
    if |s| <= n then s else s[|s| - n..]
  }

  /** The tail of a sorted sequence is sorted and holds some of its elements. */
  lemma TailOfSorted(s: seq<Record>, n: nat)
    requires SortedByDate(s)
    ensures SortedByDate(Tail(s, n))
    ensures multiset(Tail(s, n)) <= multiset(s)
  {
    var k := |s| - |Tail(s, n)|;
    assert s == s[..k] + Tail(s, n);
    assert multiset(s) == multiset(s[..k]) + multiset(Tail(s, n));
  }

  /** The rows the chart plots. */
  function Trend(rows: seq<Record>, unit: string, level: string): (r: seq<Record>)
    ensures |r| <= TrendLength
  {
    Tail(SortByDate(Matching(rows, unit, level)), TrendLength)
  }

  /**
   * The plotted rows all have the chosen unit and level, are in ascending
   * date order, are min(10, number of matching rows) many, form the end of the
   * sorted matching rows, and are rows of the table.
   */
  lemma TrendProperties(rows: seq<Record>, unit: string, level: string)
    ensures forall x | x in Trend(rows, unit, level) :: Matches(x, unit, level)
    ensures SortedByDate(Trend(rows, unit, level))
    ensures |Trend(rows, unit, level)| == Min(TrendLength, |Matching(rows, unit, level)|)
    ensures var s := SortByDate(Matching(rows, unit, level));
            Trend(rows, unit, level) == s[|s| - |Trend(rows, unit, level)|..]
    ensures multiset(Trend(rows, unit, level)) <= multiset(rows)
  {
    var m := Matching(rows, unit, level);
    var s := SortByDate(m);
    var r := Trend(rows, unit, level);
    assert |s| == |multiset(s)| == |multiset(m)| == |m|;
    TailOfSorted(s, TrendLength);
    forall x | x in r
      ensures Matches(x, unit, level)
    {
      assert x in multiset(m);
    }
  }

  /** An element of a sorted sequence that its tail leaves out is no later than anything the tail keeps. */
  lemma TailKeepsLatest(s: seq<Record>, n: nat, x: Record)
    requires SortedByDate(s)
    requires multiset(Tail(s, n))[x] < multiset(s)[x]
    ensures forall y | y in Tail(s, n) :: DateLeq(x.date, y.date)
  {
    var r := Tail(s, n);
    var k := |s| - |r|;
    assert s == s[..k] + r;
    assert multiset(s) == multiset(s[..k]) + multiset(r);
    assert x in multiset(s[..k]);
    var i :| 0 <= i < k && s[..k][i] == x;
    forall y | y in r
      ensures DateLeq(x.date, y.date)
    {
      var j :| 0 <= j < |r| && r[j] == y;
      assert s[k + j] == y;
    }
  }

  /** A matching row left out of the chart is no later than any row the chart shows. */
  lemma TrendKeepsLatest(rows: seq<Record>, unit: string, level: string, x: Record)
    requires Matches(x, unit, level)
    requires multiset(Trend(rows, unit, level))[x] < multiset(rows)[x]
    ensures forall y | y in Trend(rows, unit, level) :: DateLeq(x.date, y.date)
  {
    var m := Matching(rows, unit, level);
    var s := SortByDate(m);
    assert multiset(s)[x] == multiset(m)[x] == multiset(rows)[x];
    TailKeepsLatest(s, TrendLength, x);
  }

  /** The date column of a sequence of rows. */
  function Dates(s: seq<Record>): (d: seq<string>)
    ensures |d| == |s|
    ensures forall i | 0 <= i < |s| :: d[i] == s[i].date
  {
    seq(|s|, i requires 0 <= i < |s| => s[i].date)
  }

  predicate SortedDates(d: seq<string>)
  {
    forall i, j | 0 <= i < j < |d| :: DateLeq(d[i], d[j])
  }

  /** Removing the element at position j removes one copy of it. */
  lemma MultisetRemoveAt<T>(q: seq<T>, j: nat)
    requires j < |q|
    ensures multiset(q[..j] + q[j + 1..]) == multiset(q) - multiset{q[j]}
  {
    assert q == q[..j] + [q[j]] + q[j + 1..];
  }

  /** Dropping the first element drops one copy of it. */
  lemma MultisetRemoveFirst<T>(q: seq<T>)
    requires q != []
    ensures multiset(q[1..]) == multiset(q) - multiset{q[0]}
  {
    assert q == [q[0]] + q[1..];
  }

  /** The rest of a sorted date sequence is sorted. */
  lemma SortedDatesRest(a: seq<string>)
    requires SortedDates(a) && a != []
    ensures SortedDates(a[1..])
  {
    forall i, j | 0 <= i < j < |a| - 1
      ensures DateLeq(a[1..][i], a[1..][j])
    {
      assert a[1..][i] == a[i + 1] && a[1..][j] == a[j + 1];
    }
  }

  /** Removing the row at position j removes one copy of its date. */
  lemma DatesRemoveAt(q: seq<Record>, j: nat)
    requires j < |q|
    ensures multiset(Dates(q)) == multiset(Dates(q[..j] + q[j + 1..])) + multiset{q[j].date}
  {
    assert Dates(q) == Dates(q[..j]) + [q[j].date] + Dates(q[j + 1..]);
    assert Dates(q[..j] + q[j + 1..]) == Dates(q[..j]) + Dates(q[j + 1..]);
  }

  /** Dropping the first row drops one copy of its date. */
  lemma DatesRemoveFirst(p: seq<Record>)
    requires p != []
    ensures multiset(Dates(p)) == multiset(Dates(p[1..])) + multiset{p[0].date}
  {
    assert Dates(p) == [p[0].date] + Dates(p[1..]);
  }

  /** Rearranging rows rearranges their dates. */
  lemma {:induction false} DatesOfPermutation(p: seq<Record>, q: seq<Record>)
    requires multiset(p) == multiset(q)
    ensures multiset(Dates(p)) == multiset(Dates(q))
    decreases |p|
  {
    assert |p| == |multiset(p)| == |multiset(q)| == |q|;
    if p != [] {
      assert p[0] in multiset(q);
      var j :| 0 <= j < |q| && q[j] == p[0];
      var q' := q[..j] + q[j + 1..];
      MultisetRemoveFirst(p);
      MultisetRemoveAt(q, j);
      DatesOfPermutation(p[1..], q');
      DatesRemoveAt(q, j);
      DatesRemoveFirst(p);
    }
  }

  /** The first of a sorted date sequence is no later than any of its dates. */
  lemma FirstIsLeast(a: seq<string>, x: string)
    requires SortedDates(a) && x in a
    ensures DateLeq(a[0], x)
  {
    var j :| 0 <= j < |a| && a[j] == x;
    if j == 0 {
      DateLeqReflexive(x);
    }
  }

  /** Two sorted arrangements of the same dates are the same sequence. */
  lemma {:induction false} SortedDatesUnique(a: seq<string>, b: seq<string>)
    requires SortedDates(a) && SortedDates(b) && multiset(a) == multiset(b)
    ensures a == b
    decreases |a|
  {
    assert |a| == |multiset(a)| == |multiset(b)| == |b|;
    if a != [] {
      assert a[0] in multiset(b) && b[0] in multiset(a);
      FirstIsLeast(b, a[0]);
      FirstIsLeast(a, b[0]);
      DateLeqAntisymmetric(a[0], b[0]);
      MultisetRemoveFirst(a);
      MultisetRemoveFirst(b);
      SortedDatesRest(a);
      SortedDatesRest(b);
      SortedDatesUnique(a[1..], b[1..]);
      assert a == [a[0]] + a[1..] && b == [b[0]] + b[1..];
    }
  }

  /** The dates of a suffix are the suffix of the dates. */
  lemma DatesSuffix(s: seq<Record>, k: nat)
    requires k <= |s|
    ensures Dates(s[k..]) == Dates(s)[k..]
  {
  }

  /** Two ascending arrangements of the same rows end in the same dates. */
  lemma SortedTailsAgreeOnDates(p: seq<Record>, q: seq<Record>, n: nat)
    requires SortedByDate(p) && SortedByDate(q) && multiset(p) == multiset(q)
    ensures Dates(Tail(p, n)) == Dates(Tail(q, n))
  {
    DatesOfPermutation(p, q);
    SortedDatesUnique(Dates(p), Dates(q));
    assert |p| == |multiset(p)| == |multiset(q)| == |q|;
    var k := |p| - |Tail(p, n)|;
    DatesSuffix(p, k);
    DatesSuffix(q, k);
  }

  /**
   * sort_values need not be stable, so rows sharing a date may come out in
   * any order. Whatever ascending arrangement of the matching rows is taken,
   * its last ten rows carry the same dates as the trend.
   */
  lemma TrendDatesIndependentOfTies(rows: seq<Record>, unit: string, level: string, p: seq<Record>)
    requires SortedByDate(p)
    requires multiset(p) == multiset(Matching(rows, unit, level))
    ensures Dates(Tail(p, TrendLength)) == Dates(Trend(rows, unit, level))
  {
    SortedTailsAgreeOnDates(p, SortByDate(Matching(rows, unit, level)), TrendLength);
  }

  /** What display_charts draws: nothing, or the trend line with the drill's targets when it has any. */
  datatype Chart = NoRecords | Line(points: seq<Record>, target: Option<Target>)

  /**
   * display_charts: no chart exactly when no row has the chosen unit and
   * level; otherwise between one and ten points and the target lines of
   * that drill.
   */
  function ChartFor(rows: seq<Record>, unit: string, level: string): (c: Chart)
    ensures c.NoRecords? <==> forall x | x in rows :: !Matches(x, unit, level)
    ensures c.Line? ==> c.points == Trend(rows, unit, level) && 0 < |c.points| <= TrendLength
    ensures c.Line? ==> c.target == TargetFor(unit, level)
  {
    MatchingEmpty(rows, unit, level);
    TrendProperties(rows, unit, level);
    if Matching(rows, unit, level) == [] then NoRecords
    else Line(Trend(rows, unit, level), TargetFor(unit, level))
  }
}
