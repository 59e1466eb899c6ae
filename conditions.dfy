/**
 * The two reports the package ships, `FaultCodeOneReport` and
 * `FaultCodeTwoReport`, as instances of the general report: which columns
 * they need and in which order a missing one is reported, their headings,
 * their fault averages, and the suggestions they print.
 */
module Conditions {
  import opened Wrappers
  import opened Series
  import opened Data
  import opened Rounding
  import opened FaultStats
  import opened Narrative
  import opened Docx
  import opened Reports

  /** The flagged share of rows, in percent, before rounding. */
  function FlaggedShare(flag: seq<Flag>): (p: real)
    requires |flag| > 0
    ensures 0.0 <= p <= 100.0
  {
    CountBounds(flag);
    Share(Count(flag) as real, |flag| as real);
    100.0 * Count(flag) as real / |flag| as real
  }

  /** The percentage the rules compare: the rounded flagged share, or NaN for an empty frame. */
  lemma ComparedShare(flag: seq<Flag>)
    ensures RoundOption(PercentTrue(flag)) == if |flag| > 0 then Some(Round2(FlaggedShare(flag))) else None
  {
    PercentShare(flag);
  }

  /** Reading three columns in order fails at the first one missing. */
  lemma ThreeMissing(a: string, b: string, c: string, f: Frame)
    ensures FirstMissing([a, b, c], f)
         == if a !in f.columns then Some(a) else if b !in f.columns then Some(b)
            else if c !in f.columns then Some(c) else None
    ensures FirstMissing([a, b], f) == if a !in f.columns then Some(a) else if b !in f.columns then Some(b) else None
    ensures FirstMissing([a], f) == if a !in f.columns then Some(a) else None
  {
    assert [a, b, c] == [a] + ([b] + [c]) && [a, b] == [a] + [b] && [a] == [a] + [];
    FirstMissingCons(a, [b] + [c], f);
    FirstMissingCons(b, [c], f);
    FirstMissingCons(a, [b], f);
    FirstMissingCons(a, [], f);
    assert [b] == [b] + [] && [c] == [c] + [];
    FirstMissingCons(b, [], f);
    FirstMissingCons(c, [], f);
  }

  lemma ThreeHeadings(blocks: seq<DescribeBlock>)
    requires |blocks| == 3
    ensures Headings(blocks) == [blocks[0].heading, blocks[1].heading, blocks[2].heading]
  {
    var two, one := blocks[..2], blocks[..1];
    assert two[..1] == one && one[..0] == [];
    assert Headings(one) == [blocks[0].heading];
    assert Headings(two) == [blocks[0].heading, blocks[1].heading];
  }

  /** Sequence bookkeeping for the outline lemmas: the heading pieces merge into one eight-element literal. */
  lemma ListOfEight<T>(a: T, b: T, c: T, d: T, e: T, g: T, h: T, k: T)
    ensures [a, b, c, d] + [e, g, h] + [k] == [a, b, c, d, e, g, h, k]
  {
  }

  // ---------------------------------------------------- fault condition 1

  /**
   * A fault condition 1 report needs the duct static, fan speed and setpoint
   * columns; the first one missing, in that order, is the error.
   */
  lemma FaultOneColumns(ductStatic: string, supplyVfd: string, setpoint: string, f: Frame, at: int)
    requires Aligned(f)
    ensures Report(FaultCodeOne(ductStatic, supplyVfd, setpoint), f, at).Success?
            <==> ductStatic in f.columns && supplyVfd in f.columns && setpoint in f.columns
    ensures ductStatic !in f.columns
            ==> Report(FaultCodeOne(ductStatic, supplyVfd, setpoint), f, at) == Failure(MissingColumn(ductStatic))
    ensures ductStatic in f.columns && supplyVfd !in f.columns
            ==> Report(FaultCodeOne(ductStatic, supplyVfd, setpoint), f, at) == Failure(MissingColumn(supplyVfd))
    ensures ductStatic in f.columns && supplyVfd in f.columns && setpoint !in f.columns
            ==> Report(FaultCodeOne(ductStatic, supplyVfd, setpoint), f, at) == Failure(MissingColumn(setpoint))
  {
    FaultOneMissing(ductStatic, supplyVfd, setpoint, f);
  }

  /** The columns of a fault condition 1 report, in the order it reads them, first fail at the first one absent. */
  lemma FaultOneMissing(ductStatic: string, supplyVfd: string, setpoint: string, f: Frame)
    ensures FirstMissing(RequiredColumns(FaultCodeOne(ductStatic, supplyVfd, setpoint)), f)
         == if ductStatic !in f.columns then Some(ductStatic) else if supplyVfd !in f.columns then Some(supplyVfd)
            else if setpoint !in f.columns then Some(setpoint) else None
  {
    var cfg := FaultCodeOne(ductStatic, supplyVfd, setpoint);
    var plot, mean, described, reset := [ductStatic, supplyVfd], [ductStatic], [supplyVfd, ductStatic, setpoint], [setpoint];
    assert DescribeColumns(cfg.describe) == described;
    assert RequiredColumns(cfg) == plot + mean + described + reset;
    FirstMissingAppend(plot + mean + described, reset, f);
    FirstMissingAppend(plot + mean, described, f);
    FirstMissingAppend(plot, mean, f);
    ThreeMissing(ductStatic, supplyVfd, setpoint, f);
    assert plot == [ductStatic] + [supplyVfd] + [];
    assert mean == [ductStatic] + [];
    assert reset == [setpoint] + [];
  }

  predicate FaultOneReadable(ductStatic: string, supplyVfd: string, setpoint: string, f: Frame)
  {
    Aligned(f) && ductStatic in f.columns && supplyVfd in f.columns && setpoint in f.columns
  }

  lemma FaultOnePresent(ductStatic: string, supplyVfd: string, setpoint: string, f: Frame)
    requires FaultOneReadable(ductStatic, supplyVfd, setpoint, f)
    ensures ColumnsPresent(FaultCodeOne(ductStatic, supplyVfd, setpoint), f)
  {
    assert DescribeColumns(FaultCodeOne(ductStatic, supplyVfd, setpoint).describe) == [supplyVfd, ductStatic, setpoint];
  }

  /** The headings of a fault condition 1 report. */
  lemma FaultOneOutline(ductStatic: string, supplyVfd: string, setpoint: string, f: Frame, at: int)
    requires FaultOneReadable(ductStatic, supplyVfd, setpoint, f)
    ensures Report(FaultCodeOne(ductStatic, supplyVfd, setpoint), f, at).Success?
    ensures Collect(Report(FaultCodeOne(ductStatic, supplyVfd, setpoint), f, at).value, HeadingText)
         == ["Fault Condition One Report", "Dataset Plot", "Dataset Statistics", "Time-of-day Histogram Plots",
             "VFD Speed Statistics", "Duct Pressure Statistics", "Duct Pressure Setpoints Statistics",
             "Suggestions based on data analysis"]
  {
    var cfg := FaultCodeOne(ductStatic, supplyVfd, setpoint);
    FaultOnePresent(ductStatic, supplyVfd, setpoint, f);
    ReportOutline(cfg, f, at);
    ThreeHeadings(cfg.describe);
    ListOfEight<string>("Fault Condition One Report", "Dataset Plot", "Dataset Statistics", "Time-of-day Histogram Plots",
                        "VFD Speed Statistics", "Duct Pressure Statistics", "Duct Pressure Setpoints Statistics", "Suggestions based on data analysis");
  }

  /** The fault average bullet holds the mean duct static over flagged rows, and appears when a row is flagged. */
  lemma FaultOneAverages(ductStatic: string, supplyVfd: string, setpoint: string, f: Frame, at: int)
    requires FaultOneReadable(ductStatic, supplyVfd, setpoint, f)
    ensures Report(FaultCodeOne(ductStatic, supplyVfd, setpoint), f, at).Success?
    ensures Collect(Report(FaultCodeOne(ductStatic, supplyVfd, setpoint), f, at).value, AveragesOf)
         == if Count(f.flag) > 0 then [[RoundOption(ConditionalMean(f.columns[ductStatic], f.flag))]] else []
  {
    var cfg := FaultCodeOne(ductStatic, supplyVfd, setpoint);
    assert Stats(cfg, f).faultMeans == [RoundOption(ConditionalMean(f.columns[ductStatic], f.flag))] by {
      var s := Stats(cfg, f);
      assert |s.faultMeans| == 1;
    }
    FaultOnePresent(ductStatic, supplyVfd, setpoint, f);
    ReportAverages(cfg, f, at);
  }

  /**
   * The two suggestions of a fault condition 1 report: poor fan performance
   * when the rounded share of flagged rows exceeds 5 %, and no setpoint reset
   * when the setpoint readings are constant (and there are at least two).
   */
  lemma FaultOneSuggestions(ductStatic: string, supplyVfd: string, setpoint: string, f: Frame, at: int)
    requires FaultOneReadable(ductStatic, supplyVfd, setpoint, f)
    ensures Report(FaultCodeOne(ductStatic, supplyVfd, setpoint), f, at).Success?
    ensures Collect(Report(FaultCodeOne(ductStatic, supplyVfd, setpoint), f, at).value, SuggestionsOf)
         == [if |f.flag| > 0 && Round2(FlaggedShare(f.flag)) > 5.0 then FanHighStaticPoor else FanStaticGood,
             if |f.columns[setpoint]| >= 2 && Constant(f.columns[setpoint]) then NoSetpointReset else SetpointReset]
  {
    var cfg := FaultCodeOne(ductStatic, supplyVfd, setpoint);
    var pt := RoundOption(PercentTrue(f.flag));
    var percent := if |f.flag| > 0 && Round2(FlaggedShare(f.flag)) > 5.0 then FanHighStaticPoor else FanStaticGood;
    var reset := if |f.columns[setpoint]| >= 2 && Constant(f.columns[setpoint]) then NoSetpointReset else SetpointReset;
    assert PercentMessage(cfg.percentRule, pt) == percent by {
      ComparedShare(f.flag);
      FaultOnePercentRule(pt);
    }
    assert SetpointMessage(f.columns[cfg.setpoint.value]) == reset by {
      SetpointRule(f.columns[setpoint]);
    }
    FaultOnePresent(ductStatic, supplyVfd, setpoint, f);
    ReportSuggestions(cfg, f, at);
  }

  /**
   * The fault condition 1 threshold on the exact share: the rounded share
   * exceeds 5 exactly when the share exceeds 5.005, since the tie 5.005
   * rounds to the even hundredth 5.00.
   */
  lemma FaultOneMargin(flag: seq<Flag>)
    requires |flag| > 0
    ensures PercentMessage(FaultOneRule, RoundOption(PercentTrue(flag))) == FanHighStaticPoor <==> FlaggedShare(flag) > 5.005
    ensures PercentMessage(FaultOneRule, RoundOption(PercentTrue(flag))) == FanStaticGood <==> FlaggedShare(flag) <= 5.005
  {
    ComparedShare(flag);
    var p := FlaggedShare(flag);
    if p <= 5.005 {
      Round2Monotone(p, 5.005);
      assert RoundHalfEven(500.5) == 500;
    }
  }

  // ---------------------------------------------------- fault condition 2

  /**
   * A fault condition 2 report needs the mixed, return and outside air
   * temperature columns; the first one missing, in that order, is the error.
   */
  lemma FaultTwoColumns(mat: string, rat: string, oat: string, f: Frame, at: int)
    requires Aligned(f)
    ensures Report(FaultCodeTwo(mat, rat, oat), f, at).Success?
            <==> mat in f.columns && rat in f.columns && oat in f.columns
    ensures mat !in f.columns ==> Report(FaultCodeTwo(mat, rat, oat), f, at) == Failure(MissingColumn(mat))
    ensures mat in f.columns && rat !in f.columns
            ==> Report(FaultCodeTwo(mat, rat, oat), f, at) == Failure(MissingColumn(rat))
    ensures mat in f.columns && rat in f.columns && oat !in f.columns
            ==> Report(FaultCodeTwo(mat, rat, oat), f, at) == Failure(MissingColumn(oat))
  {
    FaultTwoMissing(mat, rat, oat, f);
  }

  /** The columns of a fault condition 2 report, in the order it reads them, first fail at the first one absent. */
  lemma FaultTwoMissing(mat: string, rat: string, oat: string, f: Frame)
    ensures FirstMissing(RequiredColumns(FaultCodeTwo(mat, rat, oat)), f)
         == if mat !in f.columns then Some(mat) else if rat !in f.columns then Some(rat)
            else if oat !in f.columns then Some(oat) else None
  {
    var cfg := FaultCodeTwo(mat, rat, oat);
    var plot, mean, described := [mat, rat, oat], [mat, oat, rat], [mat, rat, oat];
    assert DescribeColumns(cfg.describe) == described;
    assert RequiredColumns(cfg) == plot + (mean + described + []);
    FirstMissingAppend(plot, mean + described + [], f);
    ThreeMissing(mat, rat, oat, f);
  }

  predicate FaultTwoReadable(mat: string, rat: string, oat: string, f: Frame)
  {
    Aligned(f) && mat in f.columns && rat in f.columns && oat in f.columns
  }

  lemma FaultTwoPresent(mat: string, rat: string, oat: string, f: Frame)
    requires FaultTwoReadable(mat, rat, oat, f)
    ensures ColumnsPresent(FaultCodeTwo(mat, rat, oat), f)
  {
    assert DescribeColumns(FaultCodeTwo(mat, rat, oat).describe) == [mat, rat, oat];
  }

  /** The headings of a fault condition 2 report. */
  lemma FaultTwoOutline(mat: string, rat: string, oat: string, f: Frame, at: int)
    requires FaultTwoReadable(mat, rat, oat, f)
    ensures Report(FaultCodeTwo(mat, rat, oat), f, at).Success?
    ensures Collect(Report(FaultCodeTwo(mat, rat, oat), f, at).value, HeadingText)
         == ["Fault Condition Two Report", "Dataset Plot", "Dataset Statistics", "Time-of-day Histogram Plots",
             "Mix Temp Statistics", "Return Temp Statistics", "Outside Temp Statistics",
             "Suggestions based on data analysis"]
  {
    var cfg := FaultCodeTwo(mat, rat, oat);
    FaultTwoPresent(mat, rat, oat, f);
    ReportOutline(cfg, f, at);
    ThreeHeadings(cfg.describe);
    ListOfEight<string>("Fault Condition Two Report", "Dataset Plot", "Dataset Statistics", "Time-of-day Histogram Plots",
                        "Mix Temp Statistics", "Return Temp Statistics", "Outside Temp Statistics", "Suggestions based on data analysis");
  }

  /** The fault averages are the mixed, outside and return air means over flagged rows, in that order. */
  lemma FaultTwoAverages(mat: string, rat: string, oat: string, f: Frame, at: int)
    requires FaultTwoReadable(mat, rat, oat, f)
    ensures Report(FaultCodeTwo(mat, rat, oat), f, at).Success?
    ensures Collect(Report(FaultCodeTwo(mat, rat, oat), f, at).value, AveragesOf)
         == if Count(f.flag) > 0 then
              [[RoundOption(ConditionalMean(f.columns[mat], f.flag)),
                RoundOption(ConditionalMean(f.columns[oat], f.flag)),
                RoundOption(ConditionalMean(f.columns[rat], f.flag))]]
            else []
  {
    var cfg := FaultCodeTwo(mat, rat, oat);
    assert Stats(cfg, f).faultMeans
        == [RoundOption(ConditionalMean(f.columns[mat], f.flag)),
            RoundOption(ConditionalMean(f.columns[oat], f.flag)),
            RoundOption(ConditionalMean(f.columns[rat], f.flag))] by {
      var s := Stats(cfg, f);
      assert |s.faultMeans| == 3;
    }
    FaultTwoPresent(mat, rat, oat, f);
    ReportAverages(cfg, f, at);
  }

  /**
   * The one suggestion of a fault condition 2 report: "out of calibration"
   * when the rounded share of flagged rows is BELOW 5 %, the polarity the
   * source has; an empty frame reads "within calibration".
   */
  lemma FaultTwoSuggestions(mat: string, rat: string, oat: string, f: Frame, at: int)
    requires FaultTwoReadable(mat, rat, oat, f)
    ensures Report(FaultCodeTwo(mat, rat, oat), f, at).Success?
    ensures Collect(Report(FaultCodeTwo(mat, rat, oat), f, at).value, SuggestionsOf)
         == [if |f.flag| > 0 && Round2(FlaggedShare(f.flag)) < 5.0 then SensorsOutOfCalibration else SensorsWithinCalibration]
  {
    var cfg := FaultCodeTwo(mat, rat, oat);
    var pt := RoundOption(PercentTrue(f.flag));
    var percent := if |f.flag| > 0 && Round2(FlaggedShare(f.flag)) < 5.0 then SensorsOutOfCalibration else SensorsWithinCalibration;
    assert PercentMessage(cfg.percentRule, pt) == percent by {
      ComparedShare(f.flag);
      FaultTwoPercentRule(pt);
    }
    FaultTwoPresent(mat, rat, oat, f);
    ReportSuggestions(cfg, f, at);
  }

  /**
   * The fault condition 2 threshold on the exact share: the rounded share is
   * below 5 exactly when the share is below 4.995, since the tie 4.995
   * rounds to the even hundredth 5.00.
   */
  lemma FaultTwoMargin(flag: seq<Flag>)
    requires |flag| > 0
    ensures PercentMessage(FaultTwoRule, RoundOption(PercentTrue(flag))) == SensorsOutOfCalibration <==> FlaggedShare(flag) < 4.995
    ensures PercentMessage(FaultTwoRule, RoundOption(PercentTrue(flag))) == SensorsWithinCalibration <==> FlaggedShare(flag) >= 4.995
  {
    ComparedShare(flag);
    var p := FlaggedShare(flag);
    if p >= 4.995 {
      Round2Monotone(4.995, p);
      assert RoundHalfEven(499.5) == 500;
    }
  }
}
