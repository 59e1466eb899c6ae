/**
 * `summarize_fault_times`: time-weighted fault statistics over a frame, the
 * same calculus for every fault condition; only the columns that receive a
 * conditional mean differ (one pressure for fault condition 1, three
 * temperatures for fault condition 2). Arithmetic is exact; the values the
 * source passes through `round(_, 2)` are rounded as in Rounding.
 */
module FaultStats {
  import opened Wrappers
  import opened Series
  import opened Data
  import opened Rounding

  const SecondsPerHour: real := 3600.0
  const SecondsPerDay: real := 86400.0

  /** `delta.sum()` with `delta = index.diff()`: the leading NaT is skipped. */
  function ElapsedSeconds(index: seq<int>): real
  {
    NanSum(Diff(index))
  }

  /** `(delta * flag).sum()`: the interval ending at row i counts when row i is flagged. */
  function FlaggedSeconds(index: seq<int>, flag: seq<Flag>): real
    requires |flag| == |index|
  {
    NanSum(Scale(Diff(index), flag))
  }

  /** `flag.mean() * 100`: NaN on an empty frame. */
  function PercentTrue(flag: seq<Flag>): Option<real>
  {
    match Mean(AsReals(flag))
    case None => None
    case Some(m) => Some(m * 100.0)
  }

  /** `100 - percent_true`, NaN staying NaN. */
  function PercentFalse(percentTrue: Option<real>): Option<real>
  {
    match percentTrue
    case None => None
    case Some(p) => Some(100.0 - p)
  }

  /** `col.where(flag == 1).mean()`: the mean reading over flagged rows. */
  function ConditionalMean(col: seq<real>, flag: seq<Flag>): Option<real>
    requires |col| == |flag|
  {
    NanMean(Where(col, flag))
  }

  datatype Summary = Summary(
    totalDays: real,                 // rounded to hundredths
    totalHours: real,
    flaggedHours: real,
    percentTrue: Option<real>,       // rounded to hundredths
    percentFalse: Option<real>,      // rounded to hundredths
    faultMeans: seq<Option<real>>)   // one per conditional-mean column, in order, rounded

  /** `summarize_fault_times`; fails like pandas when a conditional-mean column is absent. */
  function Summarize(meanColumns: seq<string>, f: Frame): (r: Result<Summary, ColumnError>)
    requires Aligned(f)
    ensures r.Failure? <==> exists k :: 0 <= k < |meanColumns| && meanColumns[k] !in f.columns
    ensures r.Failure? ==> r.error == MissingColumn(FirstMissing(meanColumns, f).value)
    ensures r.Success? ==> |r.value.faultMeans| == |meanColumns|
    ensures r.Success? ==> forall k :: 0 <= k < |meanColumns| ==>
              meanColumns[k] in f.columns
              && r.value.faultMeans[k] == RoundOption(ConditionalMean(f.columns[meanColumns[k]], f.flag))
  {
    match FirstMissing(meanColumns, f)
    case Some(c) => Failure(MissingColumn(c))
    case None =>
      var pt := RoundOption(PercentTrue(f.flag));
      Success(Summary(
        Round2(ElapsedSeconds(f.index) / SecondsPerDay),
        ElapsedSeconds(f.index) / SecondsPerHour,
        FlaggedSeconds(f.index, f.flag) / SecondsPerHour,
        pt,
        RoundOption(PercentFalse(pt)),
        seq(|meanColumns|, k requires 0 <= k < |meanColumns| =>
          RoundOption(ConditionalMean(f.columns[meanColumns[k]], f.flag)))))
  }

  // ------------------------------------------------------- elapsed time

  lemma DiffPrefix(xs: seq<int>)
    requires |xs| >= 2
    ensures Diff(xs)[..|xs| - 1] == Diff(xs[..|xs| - 1])
    ensures Diff(xs)[|xs| - 1] == Some((xs[|xs| - 1] - xs[|xs| - 2]) as real)
  {
  }

  /** The deltas telescope: the elapsed time is last minus first, and 0 for fewer than two rows. */
  lemma {:induction false} ElapsedIsSpan(index: seq<int>)
    ensures ElapsedSeconds(index) == if |index| == 0 then 0.0 else (index[|index| - 1] - index[0]) as real
  {
    var n := |index|;
    if n == 1 {
      assert Diff(index) == [None];
      assert NanSum(Diff(index)) == NanSum(Diff(index)[..0]) + 0.0;
    } else if n >= 2 {
      var p := index[..n - 1];
      DiffPrefix(index);
      ElapsedIsSpan(p);
    }
  }

  lemma DiffNonNegative(index: seq<int>)
    requires StrictlyIncreasing(index)
    ensures NonNegative(Diff(index))
  {
  }

  /** Flagged time lies between 0 and the total time; 0 with no flag and the total with every flag. */
  lemma FlaggedWithinElapsed(index: seq<int>, flag: seq<Flag>)
    requires |flag| == |index| && StrictlyIncreasing(index)
    ensures 0.0 <= FlaggedSeconds(index, flag) <= ElapsedSeconds(index)
    ensures AllClear(flag) ==> FlaggedSeconds(index, flag) == 0.0
    ensures AllSet(flag) ==> FlaggedSeconds(index, flag) == ElapsedSeconds(index)
  {
    DiffNonNegative(index);
    ScaleBounds(Diff(index), flag);
    if AllClear(flag) { ScaleAllClear(Diff(index), flag); }
    if AllSet(flag) { ScaleAllSet(Diff(index), flag); }
  }

  /** The undefined first delta makes row 0's flag irrelevant to the flagged time. */
  lemma FirstRowFlagIgnored(index: seq<int>, flag: seq<Flag>, flag': seq<Flag>)
    requires |flag| == |index| == |flag'| && |index| > 0 && flag[1..] == flag'[1..]
    ensures FlaggedSeconds(index, flag) == FlaggedSeconds(index, flag')
  {
    var d := Diff(index);
    forall i | 0 <= i < |d| && d[i].Some? ensures flag[i] == flag'[i] {
      assert flag[i] == flag[1..][i - 1];
      assert flag'[i] == flag'[1..][i - 1];
    }
    ScaleAgrees(d, flag, flag');
  }

  // ---------------------------------------------------------- percentages

  /** percent_true is 100 * flagged rows / rows, in [0, 100], and percent_false is its exact complement. */
  lemma PercentShare(flag: seq<Flag>)
    ensures PercentTrue(flag).None? <==> |flag| == 0
    ensures |flag| > 0 ==> PercentTrue(flag) == Some(100.0 * Count(flag) as real / |flag| as real)
    ensures PercentTrue(flag).Some? ==> 0.0 <= PercentTrue(flag).value <= 100.0
    ensures PercentTrue(flag).Some? ==> PercentFalse(PercentTrue(flag)).Some?
                                        && PercentTrue(flag).value + PercentFalse(PercentTrue(flag)).value == 100.0
  {
    PercentTrueOfCount(flag);
    if |flag| > 0 {
      CountBounds(flag);
      Share(Count(flag) as real, |flag| as real);
    }
  }

  /** An all-clear column is 0 % flagged and an all-set one 100 %. */
  lemma PercentExtremes(flag: seq<Flag>)
    requires |flag| > 0
    ensures AllClear(flag) ==> PercentTrue(flag) == Some(0.0) && PercentFalse(PercentTrue(flag)) == Some(100.0)
    ensures AllSet(flag) ==> PercentTrue(flag) == Some(100.0) && PercentFalse(PercentTrue(flag)) == Some(0.0)
  {
    PercentTrueOfCount(flag);
    CountBounds(flag);
    var c, n := Count(flag) as real, |flag| as real;
    Share(c, n);
  }

  lemma PercentTrueOfCount(flag: seq<Flag>)
    ensures PercentTrue(flag) == if |flag| == 0 then None else Some(Count(flag) as real / |flag| as real * 100.0)
  {
    var xs := AsReals(flag);
    assert |xs| == |flag|;
    if |flag| > 0 {
      var c, n := Count(flag) as real, |flag| as real;
      assert Mean(xs) == Some(c / n) by {
        SumOfFlags(flag);
      }
    }
  }

  /** Arithmetic behind PercentShare: 100 * (c / n) is a percentage when 0 <= c <= n. */
  lemma Share(c: real, n: real)
    requires 0.0 <= c <= n && n > 0.0
    ensures c / n * 100.0 == 100.0 * c / n
    ensures 0.0 <= c / n * 100.0 <= 100.0
    ensures c == 0.0 ==> c / n * 100.0 == 0.0
    ensures c == n ==> c / n * 100.0 == 100.0
  {
    assert c / n <= n / n;
  }

  /** Dividing a bound on a sum by a positive count bounds the mean. */
  lemma MeanBetween(sum: real, n: real, lo: real, hi: real)
    requires n > 0.0 && n * lo <= sum <= n * hi
    ensures lo <= sum / n <= hi
  {
    assert (sum / n) * n == sum;
  }

  // ------------------------------------------------------- conditional means

  /** The conditional mean is NaN exactly when no row is flagged. */
  lemma ConditionalMeanDefinedIff(col: seq<real>, flag: seq<Flag>)
    requires |col| == |flag|
    ensures ConditionalMean(col, flag).Some? <==> Count(flag) > 0
  {
    NanCountWhere(col, flag);
  }

  /** With every row flagged the conditional mean is the plain mean. */
  lemma ConditionalMeanAllFlagged(col: seq<real>, flag: seq<Flag>)
    requires |col| == |flag| && AllSet(flag)
    ensures ConditionalMean(col, flag) == Mean(col)
  {
    NanCountWhere(col, flag);
    CountBounds(flag);
    NanSumWhereAll(col, flag);
  }

  /** A defined conditional mean lies within any bounds of the column's readings. */
  lemma ConditionalMeanBounded(col: seq<real>, flag: seq<Flag>, lo: real, hi: real)
    requires |col| == |flag|
    requires forall i :: 0 <= i < |col| ==> lo <= col[i] <= hi
    ensures ConditionalMean(col, flag).Some? ==> lo <= ConditionalMean(col, flag).value <= hi
  {
    var w := Where(col, flag);
    NanSumBounds(w, lo, hi);
    if NanCount(w) > 0 {
      MeanBetween(NanSum(w), NanCount(w) as real, lo, hi);
    }
  }

  /** The smallest reading. */
  function Min(xs: seq<real>): (m: real)
    requires |xs| > 0
    ensures forall i :: 0 <= i < |xs| ==> m <= xs[i]
    ensures exists i :: 0 <= i < |xs| && m == xs[i]
  {
    if |xs| == 1 then xs[0]
    else
      var m := Min(xs[..|xs| - 1]);
      if xs[|xs| - 1] < m then xs[|xs| - 1] else m
  }

  /** The largest reading. */
  function Max(xs: seq<real>): (m: real)
    requires |xs| > 0
    ensures forall i :: 0 <= i < |xs| ==> xs[i] <= m
    ensures exists i :: 0 <= i < |xs| && m == xs[i]
  {
    if |xs| == 1 then xs[0]
    else
      var m := Max(xs[..|xs| - 1]);
      if xs[|xs| - 1] > m then xs[|xs| - 1] else m
  }

  /** A defined conditional mean lies between the column's minimum and maximum. */
  lemma ConditionalMeanWithinRange(col: seq<real>, flag: seq<Flag>)
    requires |col| == |flag|
    ensures ConditionalMean(col, flag).Some? ==>
              |col| > 0 && Min(col) <= ConditionalMean(col, flag).value <= Max(col)
  {
    ConditionalMeanDefinedIff(col, flag);
    CountBounds(flag);
    if |col| > 0 {
      ConditionalMeanBounded(col, flag, Min(col), Max(col));
    }
  }

  // ------------------------------------------------------------- summary

  /** A rounded percentage stays a percentage, and its rounded complement still adds up to 100. */
  lemma RoundedShare(flag: seq<Flag>)
    ensures var pt := RoundOption(PercentTrue(flag));
      && (pt.Some? <==> |flag| > 0)
      && (pt.Some? ==> && 0.0 <= pt.value <= 100.0
                       && -0.005 <= pt.value - 100.0 * Count(flag) as real / |flag| as real <= 0.005
                       && RoundOption(PercentFalse(pt)) == Some(100.0 - pt.value))
  {
    PercentShare(flag);
    if |flag| > 0 {
      var p := PercentTrue(flag).value;
      Round2Within(p, 0, 10000);
      ComplementRounded(p);
    }
  }

  /** What a successful summary states about the frame it was computed from. */
  lemma SummaryFacts(meanColumns: seq<string>, f: Frame)
    requires Aligned(f) && StrictlyIncreasing(f.index) && Summarize(meanColumns, f).Success?
    ensures var s := Summarize(meanColumns, f).value;
      && s.totalHours == (if |f.index| == 0 then 0.0 else (f.index[|f.index| - 1] - f.index[0]) as real / SecondsPerHour)
      && s.totalDays == Round2(s.totalHours / 24.0)
      && 0.0 <= s.flaggedHours <= s.totalHours
      && (s.percentTrue.Some? <==> |f.index| > 0)
      && (s.percentTrue.Some? ==> 0.0 <= s.percentTrue.value <= 100.0
                                  && s.percentFalse == Some(100.0 - s.percentTrue.value))
      && forall k :: 0 <= k < |s.faultMeans| ==> (s.faultMeans[k].Some? <==> Count(f.flag) > 0)
  {
    var s := Summarize(meanColumns, f).value;
    ElapsedIsSpan(f.index);
    FlaggedWithinElapsed(f.index, f.flag);
    RoundedShare(f.flag);
    assert ElapsedSeconds(f.index) / SecondsPerDay == (ElapsedSeconds(f.index) / SecondsPerHour) / 24.0;
    forall k | 0 <= k < |s.faultMeans| ensures s.faultMeans[k].Some? <==> Count(f.flag) > 0 {
      ConditionalMeanDefinedIff(f.columns[meanColumns[k]], f.flag);
    }
  }
}
