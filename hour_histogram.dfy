/**
 * The data side of `create_hist_plot`: the hour of day of every flagged row,
 * and the 24 hour-of-day frequencies those hours fall into. The drawing of
 * the histogram is not modelled.
 */
module HourHistogram {
  import opened Wrappers
  import opened Series

  const SecondsInHour: int := 3600
  const HoursInDay: int := 24

  /** `DatetimeIndex.hour` of a timestamp in seconds (floor division, so also before the epoch). */
  function HourOfDay(t: int): (h: int)
    ensures 0 <= h < HoursInDay
  {
    (t / SecondsInHour) % HoursInDay
  }

  function Hours(index: seq<int>): (hs: seq<int>)
    ensures |hs| == |index|
  {
    seq(|index|, i requires 0 <= i < |index| => HourOfDay(index[i]))
  }

  /** The `hour_of_the_day` column `index.hour.where(flag == 1)` written into the frame. */
  function HourColumn(index: seq<int>, flag: seq<Flag>): seq<Option<int>>
    requires |flag| == |index|
  {
    Where(Hours(index), flag)
  }

  /** `hour_of_the_day.dropna()`: the hours handed to the histogram. */
  function HourSample(index: seq<int>, flag: seq<Flag>): seq<int>
    requires |flag| == |index|
  {
    DropNa(HourColumn(index, flag))
  }

  /** Frequency of each hour 0..23 in a sample. */
  function Buckets(sample: seq<int>): (b: seq<nat>)
    ensures |b| == HoursInDay
    ensures forall h :: 0 <= h < HoursInDay ==> b[h] == multiset(sample)[h]
  {
    if sample == [] then seq(HoursInDay, _ => 0)
    else
      var p, x := sample[..|sample| - 1], sample[|sample| - 1];
      assert sample == p + [x];
      var b := Buckets(p);
      if 0 <= x < HoursInDay then b[x := b[x] + 1] else b
  }

  function Total(b: seq<nat>): nat
  {
    if b == [] then 0 else Total(b[..|b| - 1]) + b[|b| - 1]
  }

  /** The number of flagged rows whose timestamp falls in hour `h`. */
  function FlaggedRowsAt(index: seq<int>, flag: seq<Flag>, h: int): nat
    requires |flag| == |index|
  {
    if index == [] then 0
    else
      var n := |index|;
      FlaggedRowsAt(index[..n - 1], flag[..n - 1], h)
        + (if flag[n - 1] == 1 && HourOfDay(index[n - 1]) == h then 1 else 0)
  }

  // ---------------------------------------------------------------- lemmas

  lemma HourColumnPrefix(index: seq<int>, flag: seq<Flag>)
    requires |flag| == |index| > 0
    ensures HourColumn(index, flag)[..|index| - 1] == HourColumn(index[..|index| - 1], flag[..|index| - 1])
    ensures HourColumn(index, flag)[|index| - 1]
            == if flag[|index| - 1] == 1 then Some(HourOfDay(index[|index| - 1])) else None
  {
    assert Hours(index)[..|index| - 1] == Hours(index[..|index| - 1]);
  }

  /** A flagged row adds its hour to the end of the sample; an unflagged row adds nothing. */
  lemma HourSampleStep(index: seq<int>, flag: seq<Flag>, t: int, b: Flag)
    requires |flag| == |index|
    ensures HourSample(index + [t], flag + [b])
            == HourSample(index, flag) + (if b == 1 then [HourOfDay(t)] else [])
  {
    var index', flag' := index + [t], flag + [b];
    HourColumnPrefix(index', flag');
    assert index'[..|index|] == index && flag'[..|index|] == flag;
  }

  /** One entry per flagged row, each an hour of day. */
  lemma HourSampleShape(index: seq<int>, flag: seq<Flag>)
    requires |flag| == |index|
    ensures |HourSample(index, flag)| == Count(flag)
    ensures forall k :: 0 <= k < |HourSample(index, flag)| ==> 0 <= HourSample(index, flag)[k] < HoursInDay
  {
    DropNaLength(HourColumn(index, flag));
    NanCountWhere(Hours(index), flag);
    DropNaKeeps(HourColumn(index, flag), h => 0 <= h < HoursInDay);
  }

  /** Each bucket counts exactly the flagged rows of its hour. */
  lemma {:induction false} BucketIsRowCount(index: seq<int>, flag: seq<Flag>, h: int)
    requires |flag| == |index| && 0 <= h < HoursInDay
    ensures Buckets(HourSample(index, flag))[h] == FlaggedRowsAt(index, flag, h)
  {
    if index != [] {
      var n := |index|;
      var p, q := index[..n - 1], flag[..n - 1];
      assert index == p + [index[n - 1]] && flag == q + [flag[n - 1]];
      HourSampleStep(p, q, index[n - 1], flag[n - 1]);
      BucketIsRowCount(p, q, h);
    }
  }

  lemma {:induction false} TotalIncrement(b: seq<nat>, x: int)
    requires 0 <= x < |b|
    ensures Total(b[x := b[x] + 1]) == Total(b) + 1
  {
    var n := |b|;
    var b' := b[x := b[x] + 1];
    assert b'[..n - 1] == if x < n - 1 then b[..n - 1][x := b[x] + 1] else b[..n - 1];
    if x < n - 1 {
      TotalIncrement(b[..n - 1], x);
    }
  }

  lemma {:induction false} TotalZero(n: nat)
    ensures Total(seq(n, _ => 0)) == 0
  {
    if n > 0 {
      assert seq(n, _ => 0)[..n - 1] == seq(n - 1, _ => 0);
      TotalZero(n - 1);
    }
  }

  /** The buckets of a sample of hours add up to the sample's size. */
  lemma {:induction false} BucketsTotal(sample: seq<int>)
    requires forall k :: 0 <= k < |sample| ==> 0 <= sample[k] < HoursInDay
    ensures Total(Buckets(sample)) == |sample|
  {
    if sample == [] {
      TotalZero(HoursInDay);
    } else {
      var p, x := sample[..|sample| - 1], sample[|sample| - 1];
      BucketsTotal(p);
      TotalIncrement(Buckets(p), x);
    }
  }

  /** The histogram's frequencies add up to the number of flagged rows; it is empty when nothing is flagged. */
  lemma HistogramTotal(index: seq<int>, flag: seq<Flag>)
    requires |flag| == |index|
    ensures Total(Buckets(HourSample(index, flag))) == Count(flag)
    ensures AllClear(flag) ==> HourSample(index, flag) == []
  {
    HourSampleShape(index, flag);
    BucketsTotal(HourSample(index, flag));
    CountBounds(flag);
  }
}
