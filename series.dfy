/** The optional value used for optional parameters and unbounded caps. */
module Wrappers {
  datatype Option<+T> = None | Some(value: T)
}

/**
  Arithmetic over monthly series. Every component of the token economy works on
  series indexed by elapsed months; Python lists of floats are modelled as
  `seq<real>`, and Python's `zip` as truncation to the shorter series.
 */
module Series {

  function Min(a: int, b: int): int { if a <= b then a else b }

  function Max(a: int, b: int): int { if a <= b then b else a }

  /** Python's `min(a, b)` on reals: the first argument unless the second is smaller. */
  function MinReal(a: real, b: real): real { if b < a then b else a }

  function Abs(x: real): real { if x < 0.0 then -x else x }

  /** The sum of a series, folded from the last month backwards. */
  function Sum(s: seq<real>): real
  {
    if |s| == 0 then 0.0 else Sum(s[..|s| - 1]) + s[|s| - 1]
  }

  /** `[0] * n` */
  function Zeros(n: nat): seq<real> { seq(n, _ => 0.0) }

  /** `[v] * n` */
  function Const(n: nat, v: real): seq<real> { seq(n, _ => v) }

  /** `[a + b for a, b in zip(xs, ys)]` */
  function ZipAdd(xs: seq<real>, ys: seq<real>): (r: seq<real>)
    ensures |r| == Min(|xs|, |ys|)
    ensures forall i :: 0 <= i < |r| ==> r[i] == xs[i] + ys[i]
  {
    seq(Min(|xs|, |ys|), i requires 0 <= i < Min(|xs|, |ys|) => xs[i] + ys[i])
  }

  /** Every element multiplied by `c` (a pandas column times a scalar). */
  function Scale(s: seq<real>, c: real): (r: seq<real>)
    ensures |r| == |s|
    ensures forall i :: 0 <= i < |s| ==> r[i] == s[i] * c
  {
    seq(|s|, i requires 0 <= i < |s| => s[i] * c)
  }

  /** `s` with `v` added to every month of the window [lo, lo + width) that exists in `s`. */
  function AddWindow(s: seq<real>, lo: int, width: int, v: real): (r: seq<real>)
    ensures |r| == |s|
  {
    seq(|s|, j requires 0 <= j < |s| => if lo <= j < lo + width then s[j] + v else s[j])
  }

  /** The number of months of [0, n) that lie in the window [lo, lo + width). */
  function WindowCount(lo: int, width: int, n: nat): nat
  {
    if n == 0 then 0 else WindowCount(lo, width, n - 1) + (if lo <= n - 1 < lo + width then 1 else 0)
  }

  lemma SumPrefixStep(s: seq<real>, i: nat)
    requires i < |s|
    ensures Sum(s[..i + 1]) == Sum(s[..i]) + s[i]
  {
    assert s[..i + 1][..i] == s[..i];
  }

  lemma {:induction false} SumAppend(s: seq<real>, t: seq<real>)
    ensures Sum(s + t) == Sum(s) + Sum(t)
    decreases |t|
  {
    if |t| == 0 {
      assert s + t == s;
    } else {
      assert (s + t)[..|s + t| - 1] == s + t[..|t| - 1];
      SumAppend(s, t[..|t| - 1]);
    }
  }

  lemma {:induction false} SumConst(n: nat, v: real)
    ensures Sum(Const(n, v)) == n as real * v
  {
    if n > 0 {
      assert Const(n, v)[..n - 1] == Const(n - 1, v);
      SumConst(n - 1, v);
    }
  }

  lemma SumZeros(n: nat)
    ensures Sum(Zeros(n)) == 0.0
  {
    SumConst(n, 0.0);
    assert Zeros(n) == Const(n, 0.0);
  }

  lemma {:induction false} SumZipAdd(xs: seq<real>, ys: seq<real>)
    requires |xs| == |ys|
    ensures Sum(ZipAdd(xs, ys)) == Sum(xs) + Sum(ys)
  {
    if |xs| > 0 {
      var n := |xs| - 1;
      assert ZipAdd(xs, ys)[..n] == ZipAdd(xs[..n], ys[..n]);
      SumZipAdd(xs[..n], ys[..n]);
    }
  }

  /** Scaling every month scales the total. */
  lemma {:induction false} SumScale(s: seq<real>, c: real)
    ensures Sum(Scale(s, c)) == Sum(s) * c
  {
    if |s| > 0 {
      var n := |s| - 1;
      forall i | 0 <= i < n ensures Scale(s, c)[..n][i] == Scale(s[..n], c)[i] { }
      assert Scale(s, c)[..n] == Scale(s[..n], c);
      SumScale(s[..n], c);
      assert (Sum(s[..n]) + s[n]) * c == Sum(s[..n]) * c + s[n] * c;
    }
  }

  /** Adding `v` over a window adds `v` once per month of the window that exists. */
  lemma {:induction false} SumAddWindow(s: seq<real>, lo: int, width: int, v: real)
    ensures Sum(AddWindow(s, lo, width, v)) == Sum(s) + WindowCount(lo, width, |s|) as real * v
  {
    if |s| > 0 {
      var n := |s| - 1;
      assert AddWindow(s, lo, width, v)[..n] == AddWindow(s[..n], lo, width, v);
      SumAddWindow(s[..n], lo, width, v);
    }
  }

  /** Spreading `total` evenly over a window that lies wholly inside the series adds `total` to its sum. */
  lemma SpreadSum(s: seq<real>, lo: nat, width: nat, total: real)
    requires 0 < width && lo + width <= |s|
    ensures Sum(AddWindow(s, lo, width, total / width as real)) == Sum(s) + total
  {
    var slice := total / width as real;
    SumAddWindow(s, lo, width, slice);
    WindowCountInside(lo, width, |s|);
    SliceTimesWidth(total, width);
  }

  lemma SliceTimesWidth(total: real, width: nat)
    requires 0 < width
    ensures width as real * (total / width as real) == total
  {
  }

  /** A window that lies wholly inside [0, n) covers exactly `width` of its months. */
  lemma {:induction false} WindowCountInside(lo: int, width: nat, n: nat)
    requires 0 <= lo && lo + width <= n
    ensures WindowCount(lo, width, n) == width
  {
    if n > 0 {
      if lo + width <= n - 1 {
        WindowCountInside(lo, width, n - 1);
      } else {
        // the window ends exactly at n: the month n - 1 is its last one
        if width > 0 {
          WindowCountInside(lo, width - 1, n - 1);
          WindowCountShift(lo, width, n - 1);
        } else {
          WindowCountEmpty(lo, n);
        }
      }
    }
  }

  lemma {:induction false} WindowCountEmpty(lo: int, n: nat)
    ensures WindowCount(lo, 0, n) == 0
  {
    if n > 0 {
      WindowCountEmpty(lo, n - 1);
    }
  }

  /** Below the window's last month, a window and the same window one month shorter agree. */
  lemma {:induction false} WindowCountShift(lo: int, width: nat, n: nat)
    requires width > 0 && lo + width - 1 >= n
    ensures WindowCount(lo, width, n) == WindowCount(lo, width - 1, n)
  {
    if n > 0 {
      WindowCountShift(lo, width, n - 1);
    }
  }

  /** Widening a window by one month adds `v` to that month alone. */
  lemma AddWindowGrow(s: seq<real>, lo: int, width: nat, v: real)
    requires 0 <= lo && lo + width < |s|
    ensures AddWindow(s, lo, width + 1, v) == AddWindow(s, lo, width, v)[lo + width := AddWindow(s, lo, width, v)[lo + width] + v]
  {
  }

  /** An empty window changes nothing. */
  lemma AddWindowEmpty(s: seq<real>, lo: int, width: int, v: real)
    requires width <= 0
    ensures AddWindow(s, lo, width, v) == s
  {
  }

  /** Widening a window past the end of the series changes nothing. */
  lemma AddWindowBeyond(s: seq<real>, lo: int, width: nat, v: real)
    requires lo + width >= |s|
    ensures AddWindow(s, lo, width + 1, v) == AddWindow(s, lo, width, v)
  {
  }

  lemma SumSingle(x: real)
    ensures Sum([x]) == x
  {
    assert [x][..0] == [];
  }

  /** The length of the shortest series: where Python's `zip` stops. */
  function MinLength(series: seq<seq<real>>): (m: nat)
    requires |series| > 0
    ensures forall k :: 0 <= k < |series| ==> m <= |series[k]|
    ensures exists k :: 0 <= k < |series| && |series[k]| == m
  {
    if |series| == 1 then |series[0]|
    else
      var rest := MinLength(series[..|series| - 1]);
      assert forall k :: 0 <= k < |series| - 1 ==> series[k] == series[..|series| - 1][k];
      Min(rest, |series[|series| - 1]|)
  }

  /** Month `t` of every series. */
  function MonthOf(series: seq<seq<real>>, t: nat): (c: seq<real>)
    requires forall k :: 0 <= k < |series| ==> t < |series[k]|
    ensures |c| == |series| && forall k :: 0 <= k < |series| ==> c[k] == series[k][t]
  {
    seq(|series|, k requires 0 <= k < |series| => series[k][t])
  }

  /**
    The month-by-month total of several series, as far as the shortest of them
    goes; no series at all gives the empty list.
   */
  function ColumnTotals(series: seq<seq<real>>): (totals: seq<real>)
    ensures |series| == 0 ==> totals == []
    ensures |series| > 0 ==> |totals| == MinLength(series)
    ensures forall t :: 0 <= t < |totals| ==> totals[t] == Sum(MonthOf(series, t))
  {
    if |series| == 0 then []
    else seq(MinLength(series), t requires 0 <= t < MinLength(series) => Sum(MonthOf(series, t)))
  }

  /** The total of each series. */
  function Totals(series: seq<seq<real>>): (totals: seq<real>)
    ensures |totals| == |series| && forall k :: 0 <= k < |series| ==> totals[k] == Sum(series[k])
  {
    seq(|series|, k requires 0 <= k < |series| => Sum(series[k]))
  }

  /** Adding one more series to the totals is one more `zip` addition. */
  lemma ColumnTotalsSnoc(series: seq<seq<real>>)
    requires |series| >= 2
    ensures ColumnTotals(series) == ZipAdd(ColumnTotals(series[..|series| - 1]), series[|series| - 1])
  {
    var n := |series| - 1;
    var prefix := series[..n];
    assert forall k :: 0 <= k < n ==> prefix[k] == series[k];
    var a, b := ColumnTotals(series), ZipAdd(ColumnTotals(prefix), series[n]);
    assert |a| == |b|;
    forall t | 0 <= t < |a| ensures a[t] == b[t] {
      assert MonthOf(series, t)[..n] == MonthOf(prefix, t);
    }
  }

  /** Series that all have a first month have a first monthly total. */
  lemma ColumnTotalsNonEmpty(series: seq<seq<real>>)
    requires |series| > 0 && forall k :: 0 <= k < |series| ==> |series[k]| > 0
    ensures |ColumnTotals(series)| > 0
  {
    var k :| 0 <= k < |series| && |series[k]| == MinLength(series);
  }

  /**
    Python's running `zip` sum over several series: an empty accumulator takes
    the next series whole, otherwise the two are added month by month as far as
    both go.
   */
  function ZipAll(series: seq<seq<real>>): seq<real>
  {
    if |series| == 0 then []
    else
      var acc := ZipAll(series[..|series| - 1]);
      if |acc| > 0 then ZipAdd(acc, series[|series| - 1]) else series[|series| - 1]
  }

  /** The running `zip` sum of a single series is that series. */
  lemma ZipAllSingle(series: seq<seq<real>>)
    requires |series| == 1
    ensures ZipAll(series) == series[0]
  {
    assert series[..0] == [];
  }

  /** One more series folded into the running `zip` sum. */
  lemma ZipAllNext(series: seq<seq<real>>, k: nat)
    requires k < |series|
    ensures ZipAll(series[..k + 1]) == if |ZipAll(series[..k])| > 0 then ZipAdd(ZipAll(series[..k]), series[k]) else series[k]
  {
    assert series[..k + 1][..k] == series[..k];
  }

  /**
    When no series is empty, the running `zip` sum is the month-by-month total,
    cut to the shortest series.
   */
  lemma {:induction false} ZipAllTotals(series: seq<seq<real>>)
    requires forall k :: 0 <= k < |series| ==> |series[k]| > 0
    ensures ZipAll(series) == ColumnTotals(series)
  {
    var n := |series|;
    if n == 1 {
      assert series[..0] == [];
      ColumnTotalsSingle(series[0]);
      assert series == [series[0]];
    } else if n > 1 {
      var prefix := series[..n - 1];
      ZipAllTotals(prefix);
      ColumnTotalsNonEmpty(prefix);
      ColumnTotalsSnoc(series);
    }
  }

  /** One series totals to itself. */
  lemma ColumnTotalsSingle(s: seq<real>)
    ensures ColumnTotals([s]) == s
  {
    forall t | 0 <= t < |s| ensures ColumnTotals([s])[t] == s[t] {
      assert MonthOf([s], t) == [s[t]];
      SumSingle(s[t]);
    }
  }

  /**
    When every series has the same length nothing is cut off, and the monthly
    totals add up to the sum of the series' own totals.
   */
  lemma {:induction false} ColumnTotalsSum(series: seq<seq<real>>, months: nat)
    requires forall k :: 0 <= k < |series| ==> |series[k]| == months
    ensures |series| > 0 ==> |ColumnTotals(series)| == months
    ensures Sum(ColumnTotals(series)) == Sum(Totals(series))
  {
    var n := |series|;
    if n == 1 {
      ColumnTotalsSingle(series[0]);
      assert series == [series[0]];
      assert Totals(series) == [Sum(series[0])];
      SumSingle(Sum(series[0]));
    } else if n > 1 {
      var prefix := series[..n - 1];
      ColumnTotalsSum(prefix, months);
      ColumnTotalsSnoc(series);
      SumZipAdd(ColumnTotals(prefix), series[n - 1]);
      assert Totals(series)[..n - 1] == Totals(prefix);
    }
  }
}
