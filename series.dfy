/**
 * The handful of pandas Series operations the report code relies on, written
 * over exact numbers. A missing entry (NaN, NaT) is `None`, and the
 * aggregations skip it, as pandas does by default (`skipna=True`).
 */
module Series {
  import opened Wrappers

  /** A fault flag after `astype(int)`: the rule engine emits only 0 and 1. */
  type Flag = b: int | 0 <= b <= 1

  /** Sum of a sequence of readings; 0 for the empty sequence. */
  function Sum(xs: seq<real>): real
  {
    if xs == [] then 0.0 else Sum(xs[..|xs| - 1]) + xs[|xs| - 1]
  }

  /** `Series.mean()`: undefined for an empty series. */
  function Mean(xs: seq<real>): Option<real>
  {
    if |xs| == 0 then None else Some(Sum(xs) / |xs| as real)
  }

  /** `Series.sum()` with NaN skipped; 0 when nothing is defined. */
  function NanSum(s: seq<Option<real>>): real
  {
    if s == [] then 0.0
    else NanSum(s[..|s| - 1]) + (if s[|s| - 1].Some? then s[|s| - 1].value else 0.0)
  }

  /** `Series.count()`: the number of defined entries. */
  function NanCount<T>(s: seq<Option<T>>): nat
  {
    if s == [] then 0 else NanCount(s[..|s| - 1]) + (if s[|s| - 1].Some? then 1 else 0)
  }

  /** `Series.mean()` with NaN skipped: NaN when no entry is defined. */
  function NanMean(s: seq<Option<real>>): Option<real>
  {
    var n := NanCount(s);
    if n == 0 then None else Some(NanSum(s) / n as real)
  }

  /** `Series.dropna()`: the defined entries, in order. */
  function DropNa<T>(s: seq<Option<T>>): seq<T>
  {
    if s == [] then []
    else DropNa(s[..|s| - 1]) + (if s[|s| - 1].Some? then [s[|s| - 1].value] else [])
  }

  /** `Series.diff()` of a timestamp index: NaT at row 0, then `t[i] - t[i-1]`. */
  function Diff(xs: seq<int>): (d: seq<Option<real>>)
    ensures |d| == |xs|
  {
    seq(|xs|, i requires 0 <= i < |xs| => if i == 0 then None else Some((xs[i] - xs[i - 1]) as real))
  }

  /** Elementwise product of a series with a flag column; NaT times anything stays NaT. */
  function Scale(s: seq<Option<real>>, flag: seq<Flag>): (r: seq<Option<real>>)
    requires |s| == |flag|
    ensures |r| == |s|
  {
    seq(|s|, i requires 0 <= i < |s| => if s[i].Some? then Some(s[i].value * flag[i] as real) else None)
  }

  /** `xs.where(flag == 1)`: the entry where the flag is set, NaN elsewhere. */
  function Where<T>(xs: seq<T>, flag: seq<Flag>): (r: seq<Option<T>>)
    requires |xs| == |flag|
    ensures |r| == |xs|
  {
    seq(|xs|, i requires 0 <= i < |xs| => if flag[i] == 1 then Some(xs[i]) else None)
  }

  /** The flag column as numbers, as `mean()` sees it. */
  function AsReals(flag: seq<Flag>): seq<real>
  {
    seq(|flag|, i requires 0 <= i < |flag| => flag[i] as real)
  }

  /** The number of rows whose flag is set. */
  function Count(flag: seq<Flag>): nat
  {
    if flag == [] then 0 else Count(flag[..|flag| - 1]) + flag[|flag| - 1]
  }

  predicate AllSet(flag: seq<Flag>)
  {
    forall i :: 0 <= i < |flag| ==> flag[i] == 1
  }

  predicate AllClear(flag: seq<Flag>)
  {
    forall i :: 0 <= i < |flag| ==> flag[i] == 0
  }

  /** Every defined entry is non-negative. */
  predicate NonNegative(s: seq<Option<real>>)
  {
    forall i :: 0 <= i < |s| && s[i].Some? ==> s[i].value >= 0.0
  }

  // ---------------------------------------------------------------- lemmas

  lemma {:induction false} CountBounds(flag: seq<Flag>)
    ensures Count(flag) <= |flag|
    ensures AllClear(flag) ==> Count(flag) == 0
    ensures AllSet(flag) ==> Count(flag) == |flag|
    ensures Count(flag) == 0 ==> AllClear(flag)
  {
    if flag != [] {
      CountBounds(flag[..|flag| - 1]);
    }
  }

  /** The mean of the flag column is the share of flagged rows. */
  lemma {:induction false} SumOfFlags(flag: seq<Flag>)
    ensures Sum(AsReals(flag)) == Count(flag) as real
  {
    if flag != [] {
      var p := flag[..|flag| - 1];
      assert AsReals(flag)[..|flag| - 1] == AsReals(p);
      SumOfFlags(p);
    }
  }

  /** `where(flag == 1)` keeps exactly one defined entry per flagged row. */
  lemma {:induction false} NanCountWhere<T>(xs: seq<T>, flag: seq<Flag>)
    requires |xs| == |flag|
    ensures NanCount(Where(xs, flag)) == Count(flag)
  {
    if xs != [] {
      var n := |xs|;
      assert Where(xs, flag)[..n - 1] == Where(xs[..n - 1], flag[..n - 1]);
      NanCountWhere(xs[..n - 1], flag[..n - 1]);
    }
  }

  lemma {:induction false} DropNaLength<T>(s: seq<Option<T>>)
    ensures |DropNa(s)| == NanCount(s)
  {
    if s != [] {
      DropNaLength(s[..|s| - 1]);
    }
  }

  /** Every entry `dropna` keeps was a defined entry of the series. */
  lemma {:induction false} DropNaKeeps<T>(s: seq<Option<T>>, p: T -> bool)
    requires forall i :: 0 <= i < |s| && s[i].Some? ==> p(s[i].value)
    ensures forall k :: 0 <= k < |DropNa(s)| ==> p(DropNa(s)[k])
  {
    if s != [] {
      DropNaKeeps(s[..|s| - 1], p);
    }
  }

  /** When every flag is set, the masked sum is the plain sum. */
  lemma {:induction false} NanSumWhereAll(xs: seq<real>, flag: seq<Flag>)
    requires |xs| == |flag| && AllSet(flag)
    ensures NanSum(Where(xs, flag)) == Sum(xs)
  {
    if xs != [] {
      var n := |xs|;
      assert Where(xs, flag)[..n - 1] == Where(xs[..n - 1], flag[..n - 1]);
      NanSumWhereAll(xs[..n - 1], flag[..n - 1]);
    }
  }

  /** A skip-NaN sum of entries in [lo, hi] lies between count*lo and count*hi. */
  lemma {:induction false} NanSumBounds(s: seq<Option<real>>, lo: real, hi: real)
    requires forall i :: 0 <= i < |s| && s[i].Some? ==> lo <= s[i].value <= hi
    ensures NanCount(s) as real * lo <= NanSum(s) <= NanCount(s) as real * hi
  {
    if s != [] {
      NanSumBounds(s[..|s| - 1], lo, hi);
    }
  }

  /** Weighting non-negative intervals by 0/1 flags keeps the sum between 0 and the unweighted sum. */
  lemma {:induction false} ScaleBounds(s: seq<Option<real>>, flag: seq<Flag>)
    requires |s| == |flag| && NonNegative(s)
    ensures 0.0 <= NanSum(Scale(s, flag)) <= NanSum(s)
  {
    if s != [] {
      var n := |s|;
      assert Scale(s, flag)[..n - 1] == Scale(s[..n - 1], flag[..n - 1]);
      ScaleBounds(s[..n - 1], flag[..n - 1]);
    }
  }

  /** Flags only matter at defined entries. */
  lemma ScaleAgrees(s: seq<Option<real>>, flag: seq<Flag>, flag': seq<Flag>)
    requires |s| == |flag| && |flag'| == |flag|
    requires forall i :: 0 <= i < |s| && s[i].Some? ==> flag[i] == flag'[i]
    ensures Scale(s, flag) == Scale(s, flag')
  {
    assert forall i :: 0 <= i < |s| ==> Scale(s, flag)[i] == Scale(s, flag')[i];
  }

  lemma {:induction false} ScaleAllClear(s: seq<Option<real>>, flag: seq<Flag>)
    requires |s| == |flag| && AllClear(flag)
    ensures NanSum(Scale(s, flag)) == 0.0
  {
    if s != [] {
      var n := |s|;
      assert Scale(s, flag)[..n - 1] == Scale(s[..n - 1], flag[..n - 1]);
      ScaleAllClear(s[..n - 1], flag[..n - 1]);
    }
  }

  lemma {:induction false} ScaleAllSet(s: seq<Option<real>>, flag: seq<Flag>)
    requires |s| == |flag| && AllSet(flag)
    ensures NanSum(Scale(s, flag)) == NanSum(s)
  {
    if s != [] {
      var n := |s|;
      assert Scale(s, flag)[..n - 1] == Scale(s[..n - 1], flag[..n - 1]);
      ScaleAllSet(s[..n - 1], flag[..n - 1]);
    }
  }
}
