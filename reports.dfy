/**
 * `create_report` for both fault conditions, written once over a
 * configuration: the order in which sections are written, the guard on the
 * fault-average bullet, the suggestion sentences chosen from the statistics,
 * and the column reads that make the report fail. `Report` is the finished
 * document as a value; `CreateReport` writes it step by step into a Document
 * and is proved to produce exactly that value.
 */
module Reports {
  import opened Wrappers
  import opened Series
  import opened Data
  import opened Rounding
  import opened FaultStats
  import opened HourHistogram
  import opened Narrative
  import opened Docx

  /** A level-2 heading followed by a bullet holding the `describe()` summary of one column. */
  datatype DescribeBlock = DescribeBlock(heading: string, column: string)

  /** What distinguishes one fault condition's report from another's. */
  datatype ReportConfig = ReportConfig(
    code: FaultCode,
    title: string,
    plotColumns: seq<string>,       // sensor columns the time-series plot reads, in order
    meanColumns: seq<string>,       // columns averaged over flagged rows, in order; the first guards the average bullet
    describe: seq<DescribeBlock>,
    percentRule: PercentRule,
    setpoint: Option<string>)       // the setpoint whose spread decides the reset suggestion

  /** `FaultCodeOneReport` over its duct static, supply fan speed and duct static setpoint columns. */
  function FaultCodeOne(ductStatic: string, supplyVfd: string, setpoint: string): ReportConfig
  {
    ReportConfig(FaultOne, "Fault Condition One Report",
      [ductStatic, supplyVfd], [ductStatic],
      [DescribeBlock("VFD Speed Statistics", supplyVfd),
       DescribeBlock("Duct Pressure Statistics", ductStatic),
       DescribeBlock("Duct Pressure Setpoints Statistics", setpoint)],
      FaultOneRule, Some(setpoint))
  }

  /** `FaultCodeTwoReport` over its mixed, return and outside air temperature columns. */
  function FaultCodeTwo(mat: string, rat: string, oat: string): ReportConfig
  {
    ReportConfig(FaultTwo, "Fault Condition Two Report",
      [mat, rat, oat], [mat, oat, rat],
      [DescribeBlock("Mix Temp Statistics", mat),
       DescribeBlock("Return Temp Statistics", rat),
       DescribeBlock("Outside Temp Statistics", oat)],
      FaultTwoRule, None)
  }

  // ------------------------------------------------------ the columns read

  function DescribeColumns(blocks: seq<DescribeBlock>): (names: seq<string>)
    ensures |names| == |blocks| && forall i :: 0 <= i < |blocks| ==> names[i] == blocks[i].column
  {
    seq(|blocks|, i requires 0 <= i < |blocks| => blocks[i].column)
  }

  function SetpointColumns(cfg: ReportConfig): seq<string>
  {
    if cfg.setpoint.Some? then [cfg.setpoint.value] else []
  }

  /** Every sensor column the report reads, in the order it first reads them. */
  function RequiredColumns(cfg: ReportConfig): seq<string>
  {
    cfg.plotColumns + cfg.meanColumns + DescribeColumns(cfg.describe) + SetpointColumns(cfg)
  }

  /** The frame has every sensor column the report reads. */
  predicate ColumnsPresent(cfg: ReportConfig, f: Frame)
  {
    && HasColumns(cfg.plotColumns, f)
    && HasColumns(cfg.meanColumns, f)
    && HasColumns(DescribeColumns(cfg.describe), f)
    && (cfg.setpoint.Some? ==> cfg.setpoint.value in f.columns)
  }

  lemma RequiredParts(cfg: ReportConfig, f: Frame)
    ensures HasColumns(RequiredColumns(cfg), f) <==> ColumnsPresent(cfg, f)
  {
    if cfg.setpoint.Some? {
      assert SetpointColumns(cfg) == [cfg.setpoint.value];
      assert SetpointColumns(cfg)[0] == cfg.setpoint.value;
    }
    HasColumnsAppend(cfg.plotColumns, cfg.meanColumns, f);
    HasColumnsAppend(cfg.plotColumns + cfg.meanColumns, DescribeColumns(cfg.describe), f);
    HasColumnsAppend(cfg.plotColumns + cfg.meanColumns + DescribeColumns(cfg.describe), SetpointColumns(cfg), f);
  }

  /** With `before` all present, reading `before`, `mid`, `after` fails where `mid` does. */
  lemma FirstMissingSplit(before: seq<string>, mid: seq<string>, after: seq<string>, f: Frame)
    requires HasColumns(before, f) && FirstMissing(mid, f).Some?
    ensures FirstMissing(before + mid + after, f) == FirstMissing(mid, f)
  {
    assert before + mid + after == before + (mid + after);
    FirstMissingAppend(before, mid + after, f);
    FirstMissingAppend(mid, after, f);
  }

  // ------------------------------------------------- the finished document

  function Stats(cfg: ReportConfig, f: Frame): Summary
    requires Aligned(f) && HasColumns(cfg.meanColumns, f)
  {
    Summarize(cfg.meanColumns, f).value
  }

  /** Title, introduction, definition figure, plot heading, time-series plot, statistics heading. */
  function Preamble(cfg: ReportConfig): seq<Section>
  {
    [Heading(cfg.title, 0), Paragraph(Normal, [Run(Intro(cfg.code), Plain)]), Picture(Definition(cfg.code)),
     Heading("Dataset Plot", 2), Picture(TimeSeriesPlot(cfg.code)), Heading("Dataset Statistics", 2)]
  }

  /** The five statistics bullets, in the order written. */
  function StatisticLines(s: Summary): seq<Line>
  {
    [TotalDays(s.totalDays), TotalHours(s.totalHours), FlaggedHours(s.flaggedHours),
     TruePercent(s.percentTrue), FalsePercent(s.percentFalse)]
  }

  function StatisticBullets(s: Summary): seq<Section>
  {
    [Bullet(TotalDays(s.totalDays)), Bullet(TotalHours(s.totalHours)), Bullet(FlaggedHours(s.flaggedHours)),
     Bullet(TruePercent(s.percentTrue)), Bullet(FalsePercent(s.percentFalse))]
  }

  const EmptyParagraph: Section := Paragraph(Normal, [])

  function HistogramBlock(f: Frame): seq<Section>
    requires |f.flag| == |f.index|
  {
    [EmptyParagraph, Heading("Time-of-day Histogram Plots", 2), Picture(HourHistogramPlot(HourSample(f.index, f.flag)))]
  }

  /** `not math.isnan(...)` on the first conditional mean. */
  predicate AverageDefined(s: Summary)
  {
    |s.faultMeans| > 0 && s.faultMeans[0].Some?
  }

  function AverageBlock(cfg: ReportConfig, s: Summary): seq<Section>
  {
    (if AverageDefined(s) then [Bullet(FaultAverages(cfg.code, s.faultMeans))] else []) + [EmptyParagraph]
  }

  lemma DescribeColumnsPrefix(blocks: seq<DescribeBlock>, i: nat)
    requires i <= |blocks|
    ensures DescribeColumns(blocks[..i]) == DescribeColumns(blocks)[..i]
  {
  }

  lemma HasColumnsPrefix(names: seq<string>, i: nat, f: Frame)
    requires i <= |names| && HasColumns(names, f)
    ensures HasColumns(names[..i], f)
  {
    assert names == names[..i] + names[i..];
    HasColumnsAppend(names[..i], names[i..], f);
  }

  /** With the first `i` described columns present, reading the next one either fails there or extends the prefix. */
  lemma DescribeReadAt(blocks: seq<DescribeBlock>, i: nat, f: Frame)
    requires i < |blocks| && HasColumns(DescribeColumns(blocks[..i]), f)
    ensures blocks[i].column !in f.columns ==> FirstMissing(DescribeColumns(blocks), f) == Some(blocks[i].column)
    ensures blocks[i].column in f.columns ==> HasColumns(DescribeColumns(blocks[..i + 1]), f)
  {
    var c := blocks[i].column;
    DescribeColumnsPrefix(blocks, i);
    DescribeColumnsPrefix(blocks, i + 1);
    var d := DescribeColumns(blocks);
    assert d[..i + 1] == d[..i] + [c];
    if c !in f.columns {
      assert d == d[..i] + [c] + d[i + 1..];
      FirstMissingSplit(d[..i], [c], d[i + 1..], f);
    } else {
      HasColumnsAppend(d[..i], [c], f);
    }
  }

  function DescribeSections(blocks: seq<DescribeBlock>, f: Frame): seq<Section>
    requires HasColumns(DescribeColumns(blocks), f)
  {
    if blocks == [] then []
    else
      var b := blocks[|blocks| - 1];
      DescribeColumnsPrefix(blocks, |blocks| - 1);
      HasColumnsPrefix(DescribeColumns(blocks), |blocks| - 1, f);
      assert b.column == DescribeColumns(blocks)[|blocks| - 1];
      DescribeSections(blocks[..|blocks| - 1], f) + [Heading(b.heading, 2), Bullet(Description(f.columns[b.column]))]
  }

  function SetpointSuggestion(cfg: ReportConfig, f: Frame): seq<Section>
    requires cfg.setpoint.Some? ==> cfg.setpoint.value in f.columns
  {
    if cfg.setpoint.Some? then
      [Bullet(Suggestion(SetpointMessage(f.columns[cfg.setpoint.value])))]
    else []
  }

  function SuggestionBlock(cfg: ReportConfig, s: Summary, f: Frame): seq<Section>
    requires cfg.setpoint.Some? ==> cfg.setpoint.value in f.columns
  {
    [Heading("Suggestions based on data analysis", 2), Bullet(Suggestion(PercentMessage(cfg.percentRule, s.percentTrue)))]
      + SetpointSuggestion(cfg, f)
  }

  /** "Report generated: <time>" in the Emphasis run style. */
  function Footer(at: int): Section
  {
    Paragraph(Normal, [Run(Generated(at), Emphasis)])
  }

  /** The describe blocks and the setpoint can be read: what a layout needs of the frame. */
  predicate Readable(cfg: ReportConfig, f: Frame)
  {
    && |f.flag| == |f.index|
    && HasColumns(DescribeColumns(cfg.describe), f)
    && (cfg.setpoint.Some? ==> cfg.setpoint.value in f.columns)
  }

  /** The sections of a report written from the summary `s`, in the order `create_report` writes them. */
  function Layout(cfg: ReportConfig, f: Frame, s: Summary, at: int): seq<Section>
    requires Readable(cfg, f)
  {
    Preamble(cfg) + StatisticBullets(s) + HistogramBlock(f) + AverageBlock(cfg, s)
      + DescribeSections(cfg.describe, f) + SuggestionBlock(cfg, s, f) + [Footer(at)]
  }

  function Sections(cfg: ReportConfig, f: Frame, at: int): seq<Section>
    requires Aligned(f) && ColumnsPresent(cfg, f)
  {
    Layout(cfg, f, Stats(cfg, f), at)
  }

  /**
   * The document `create_report` returns for the frame, the time `at` that
   * `time.ctime()` reads, or the `KeyError` of the first column it lacks.
   */
  function Report(cfg: ReportConfig, f: Frame, at: int): Result<seq<Section>, ColumnError>
    requires Aligned(f)
  {
    RequiredParts(cfg, f);
    match FirstMissing(RequiredColumns(cfg), f)
    case Some(c) => Failure(MissingColumn(c))
    case None => Success(Sections(cfg, f, at))
  }

  // ----------------------------------------------------- writing the report

  /** `create_report`: writes the sections one call at a time, failing at the first absent column. */
  method CreateReport(cfg: ReportConfig, f: Frame, at: int) returns (r: Result<Document, ColumnError>)
    requires Aligned(f)
    ensures r.Failure? ==> Report(cfg, f, at) == Failure(r.error)
    ensures r.Success? ==> fresh(r.value) && Report(cfg, f, at) == Success(r.value.sections)
  {
    ReadOrder(cfg, f);
    var document := new Document();
    var missing := WritePreamble(document, cfg, f);
    if missing.Some? {
      return Failure(MissingColumn(missing.value));
    }
    var summary := Summarize(cfg.meanColumns, f);
    if summary.Failure? {
      return Failure(summary.error);
    }
    var s := summary.value;
    WriteStatistics(document, s);
    WriteHistogram(document, f);
    WriteAverage(document, cfg, s);
    missing := WriteDescribeBlocks(document, cfg.describe, f);
    if missing.Some? {
      return Failure(MissingColumn(missing.value));
    }
    missing := WriteSuggestions(document, cfg, s, f);
    if missing.Some? {
      return Failure(MissingColumn(missing.value));
    }
    WriteFooter(document, at);
    return Success(document);
  }

  /** The columns are read in the order of RequiredColumns: plot, means, describe blocks, setpoint. */
  lemma ReadOrder(cfg: ReportConfig, f: Frame)
    ensures var plot, mean, d, sp := cfg.plotColumns, cfg.meanColumns, DescribeColumns(cfg.describe), SetpointColumns(cfg);
      && (FirstMissing(plot, f).Some? ==> FirstMissing(RequiredColumns(cfg), f) == FirstMissing(plot, f))
      && (HasColumns(plot, f) && FirstMissing(mean, f).Some? ==> FirstMissing(RequiredColumns(cfg), f) == FirstMissing(mean, f))
      && (HasColumns(plot, f) && HasColumns(mean, f) && FirstMissing(d, f).Some? ==>
            FirstMissing(RequiredColumns(cfg), f) == FirstMissing(d, f))
      && (HasColumns(plot, f) && HasColumns(mean, f) && HasColumns(d, f) && FirstMissing(sp, f).Some? ==>
            FirstMissing(RequiredColumns(cfg), f) == FirstMissing(sp, f))
      && (HasColumns(RequiredColumns(cfg), f) <==> ColumnsPresent(cfg, f))
  {
    var plot, mean, d, sp := cfg.plotColumns, cfg.meanColumns, DescribeColumns(cfg.describe), SetpointColumns(cfg);
    RequiredParts(cfg, f);
    HasColumnsAppend(plot, mean, f);
    HasColumnsAppend(plot + mean, d, f);
    if FirstMissing(plot, f).Some? {
      assert RequiredColumns(cfg) == [] + plot + (mean + d + sp);
      FirstMissingSplit([], plot, mean + d + sp, f);
    }
    if HasColumns(plot, f) && FirstMissing(mean, f).Some? {
      assert RequiredColumns(cfg) == plot + mean + (d + sp);
      FirstMissingSplit(plot, mean, d + sp, f);
    }
    if HasColumns(plot, f) && HasColumns(mean, f) && FirstMissing(d, f).Some? {
      FirstMissingSplit(plot + mean, d, sp, f);
    }
    if HasColumns(plot, f) && HasColumns(mean, f) && HasColumns(d, f) && FirstMissing(sp, f).Some? {
      assert RequiredColumns(cfg) == plot + mean + d + sp + [];
      FirstMissingSplit(plot + mean + d, sp, [], f);
    }
  }

  /** Title, introduction and definition figure, then the plot, which reads the plotted columns. */
  method WritePreamble(document: Document, cfg: ReportConfig, f: Frame) returns (missing: Option<string>)
    requires document.sections == []
    modifies document
    ensures missing == FirstMissing(cfg.plotColumns, f)
    ensures missing.None? ==> document.sections == Preamble(cfg)
  {
    document.AddHeading(cfg.title, 0);
    var _ := document.AddParagraph(Some(Intro(cfg.code)));
    document.AddPicture(Definition(cfg.code));
    document.AddHeading("Dataset Plot", 2);
    missing := FirstMissing(cfg.plotColumns, f);
    if missing.Some? {
      return;
    }
    document.AddPicture(TimeSeriesPlot(cfg.code));
    document.AddHeading("Dataset Statistics", 2);
  }

  /** The five statistics bullets. */
  method WriteStatistics(document: Document, s: Summary)
    modifies document
    ensures document.sections == old(document.sections) + StatisticBullets(s)
  {
    document.AddBullet(TotalDays(s.totalDays));
    document.AddBullet(TotalHours(s.totalHours));
    document.AddBullet(FlaggedHours(s.flaggedHours));
    document.AddBullet(TruePercent(s.percentTrue));
    document.AddBullet(FalsePercent(s.percentFalse));
  }

  /** An empty paragraph, the histogram heading and the hour-of-day histogram. */
  method WriteHistogram(document: Document, f: Frame)
    requires |f.flag| == |f.index|
    modifies document
    ensures document.sections == old(document.sections) + HistogramBlock(f)
  {
    var _ := document.AddParagraph(None);
    document.AddHeading("Time-of-day Histogram Plots", 2);
    document.AddPicture(HourHistogramPlot(HourSample(f.index, f.flag)));
  }

  /** The fault-average bullet when the first conditional mean is not NaN, then an empty paragraph. */
  method WriteAverage(document: Document, cfg: ReportConfig, s: Summary)
    modifies document
    ensures document.sections == old(document.sections) + AverageBlock(cfg, s)
  {
    if AverageDefined(s) {
      document.AddBullet(FaultAverages(cfg.code, s.faultMeans));
    }
    var _ := document.AddParagraph(None);
  }

  /** Each describe block in turn; the heading is written before its column is read. */
  method WriteDescribeBlocks(document: Document, blocks: seq<DescribeBlock>, f: Frame) returns (missing: Option<string>)
    modifies document
    ensures missing == FirstMissing(DescribeColumns(blocks), f)
    ensures missing.None? ==> document.sections == old(document.sections) + DescribeSections(blocks, f)
  {
    var i := 0;
    while i < |blocks|
      invariant 0 <= i <= |blocks|
      invariant HasColumns(DescribeColumns(blocks[..i]), f)
      invariant document.sections == old(document.sections) + DescribeSections(blocks[..i], f)
    {
      var block := blocks[i];
      document.AddHeading(block.heading, 2);
      DescribeReadAt(blocks, i, f);
      if block.column !in f.columns {
        return Some(block.column);
      }
      document.AddBullet(Description(f.columns[block.column]));
      assert blocks[..i + 1][..i] == blocks[..i];
      i := i + 1;
    }
    assert blocks[..i] == blocks;
    return None;
  }

  /** The suggestions heading, the percent suggestion and, when configured, the setpoint suggestion. */
  method WriteSuggestions(document: Document, cfg: ReportConfig, s: Summary, f: Frame) returns (missing: Option<string>)
    modifies document
    ensures missing == FirstMissing(SetpointColumns(cfg), f)
    ensures missing.None? ==> document.sections == old(document.sections) + SuggestionBlock(cfg, s, f)
  {
    document.AddHeading("Suggestions based on data analysis", 2);
    var p := document.AddParagraph(None);
    document.SetStyle(p, ListBullet);
    var run;
    if Holds(cfg.percentRule.cmp, s.percentTrue, cfg.percentRule.threshold) {
      run := document.AddRun(p, Suggestion(cfg.percentRule.whenMet));
    } else {
      run := document.AddRun(p, Suggestion(cfg.percentRule.otherwise));
    }
    assert [] + [Run(Suggestion(PercentMessage(cfg.percentRule, s.percentTrue)), Plain)]
        == [Run(Suggestion(PercentMessage(cfg.percentRule, s.percentTrue)), Plain)];
    missing := WriteSetpoint(document, cfg, f);
  }

  /** The setpoint bullet: its paragraph is added before the setpoint column is read. */
  method WriteSetpoint(document: Document, cfg: ReportConfig, f: Frame) returns (missing: Option<string>)
    modifies document
    ensures missing == FirstMissing(SetpointColumns(cfg), f)
    ensures missing.None? ==> document.sections == old(document.sections) + SetpointSuggestion(cfg, f)
  {
    if cfg.setpoint.Some? {
      var p := document.AddParagraph(None);
      document.SetStyle(p, ListBullet);
      var column := cfg.setpoint.value;
      if column !in f.columns {
        return Some(column);
      }
      var run;
      // `std() == 0`: the spread is zero exactly when the variance is
      if SampleVariance(f.columns[column]) == Some(0.0) {
        run := document.AddRun(p, Suggestion(NoSetpointReset));
      } else {
        run := document.AddRun(p, Suggestion(SetpointReset));
      }
      assert [] + [Run(Suggestion(SetpointMessage(f.columns[column])), Plain)]
          == [Run(Suggestion(SetpointMessage(f.columns[column])), Plain)];
    }
    return None;
  }

  /** The closing paragraph: one run stamped with the generation time, in the Emphasis style. */
  method WriteFooter(document: Document, at: int)
    modifies document
    ensures document.sections == old(document.sections) + [Footer(at)]
  {
    var p := document.AddParagraph(None);
    var run := document.AddRun(p, Generated(at));
    document.SetRunStyle(p, run, Emphasis);
    assert ([] + [Run(Generated(at), Plain)])[0 := Run(Generated(at), Emphasis)] == [Run(Generated(at), Emphasis)];
  }

  // ------------------------------------------------ what a report contains

  /** What `pick` finds in a report is what it finds in each block, in the order written. */
  lemma SectionsCollect<T>(cfg: ReportConfig, f: Frame, s: Summary, at: int, pick: Section -> seq<T>)
    requires Readable(cfg, f)
    ensures Collect(Layout(cfg, f, s, at), pick)
      == Collect(Preamble(cfg), pick) + Collect(StatisticBullets(s), pick) + Collect(HistogramBlock(f), pick)
         + Collect(AverageBlock(cfg, s), pick) + Collect(DescribeSections(cfg.describe, f), pick)
         + Collect(SuggestionBlock(cfg, s, f), pick) + pick(Footer(at))
  {
    var pre, stats, hist, avg := Preamble(cfg), StatisticBullets(s), HistogramBlock(f), AverageBlock(cfg, s);
    var desc, sugg := DescribeSections(cfg.describe, f), SuggestionBlock(cfg, s, f);
    CollectAppend(pre, stats, pick);
    CollectAppend(pre + stats, hist, pick);
    CollectAppend(pre + stats + hist, avg, pick);
    CollectAppend(pre + stats + hist + avg, desc, pick);
    CollectAppend(pre + stats + hist + avg + desc, sugg, pick);
    CollectAppend(pre + stats + hist + avg + desc + sugg, [Footer(at)], pick);
    Collect1(Footer(at), pick);
  }

  lemma PreamblePick<T>(cfg: ReportConfig, pick: Section -> seq<T>)
    ensures Collect(Preamble(cfg), pick)
         == pick(Heading(cfg.title, 0)) + pick(Paragraph(Normal, [Run(Intro(cfg.code), Plain)]))
            + pick(Picture(Definition(cfg.code))) + pick(Heading("Dataset Plot", 2))
            + pick(Picture(TimeSeriesPlot(cfg.code))) + pick(Heading("Dataset Statistics", 2))
  {
    var pre := Preamble(cfg);
    assert pre == [pre[0], pre[1], pre[2]] + [pre[3], pre[4], pre[5]];
    CollectAppend([pre[0], pre[1], pre[2]], [pre[3], pre[4], pre[5]], pick);
    Collect3(pre[0], pre[1], pre[2], pick);
    Collect3(pre[3], pre[4], pre[5], pick);
  }

  /** A view that sees nothing in any preamble section sees nothing in the preamble. */
  lemma PreambleSilent<T>(cfg: ReportConfig, pick: Section -> seq<T>)
    requires pick(Heading(cfg.title, 0)) == [] && pick(Paragraph(Normal, [Run(Intro(cfg.code), Plain)])) == []
    requires pick(Picture(Definition(cfg.code))) == [] && pick(Heading("Dataset Plot", 2)) == []
    requires pick(Picture(TimeSeriesPlot(cfg.code))) == [] && pick(Heading("Dataset Statistics", 2)) == []
    ensures Collect(Preamble(cfg), pick) == []
  {
    PreamblePick(cfg, pick);
  }

  lemma StatisticsPick<T>(s: Summary, pick: Section -> seq<T>)
    ensures Collect(StatisticBullets(s), pick)
         == pick(Bullet(TotalDays(s.totalDays))) + pick(Bullet(TotalHours(s.totalHours)))
            + pick(Bullet(FlaggedHours(s.flaggedHours))) + pick(Bullet(TruePercent(s.percentTrue)))
            + pick(Bullet(FalsePercent(s.percentFalse)))
  {
    var b := StatisticBullets(s);
    assert b == [b[0], b[1], b[2]] + [b[3], b[4]];
    CollectAppend([b[0], b[1], b[2]], [b[3], b[4]], pick);
    Collect3(b[0], b[1], b[2], pick);
    Collect2(b[3], b[4], pick);
  }

  lemma HistogramPick<T>(f: Frame, pick: Section -> seq<T>)
    requires |f.flag| == |f.index|
    ensures Collect(HistogramBlock(f), pick)
         == pick(EmptyParagraph) + pick(Heading("Time-of-day Histogram Plots", 2))
            + pick(Picture(HourHistogramPlot(HourSample(f.index, f.flag))))
  {
    var h := HistogramBlock(f);
    Collect3(h[0], h[1], h[2], pick);
  }

  lemma AveragePick<T>(cfg: ReportConfig, s: Summary, pick: Section -> seq<T>)
    ensures Collect(AverageBlock(cfg, s), pick)
         == (if AverageDefined(s) then pick(Bullet(FaultAverages(cfg.code, s.faultMeans))) else [])
            + pick(EmptyParagraph)
  {
    if AverageDefined(s) {
      Collect2(Bullet(FaultAverages(cfg.code, s.faultMeans)), EmptyParagraph, pick);
    } else {
      Collect1(EmptyParagraph, pick);
    }
  }

  lemma SuggestionPick<T>(cfg: ReportConfig, s: Summary, f: Frame, pick: Section -> seq<T>)
    requires cfg.setpoint.Some? ==> cfg.setpoint.value in f.columns
    ensures Collect(SuggestionBlock(cfg, s, f), pick)
         == pick(Heading("Suggestions based on data analysis", 2))
            + pick(Bullet(Suggestion(PercentMessage(cfg.percentRule, s.percentTrue))))
            + (if cfg.setpoint.Some? then pick(Bullet(Suggestion(SetpointMessage(f.columns[cfg.setpoint.value])))) else [])
  {
    var g := SuggestionBlock(cfg, s, f);
    var head := [g[0], g[1]];
    assert g == head + SetpointSuggestion(cfg, f);
    CollectAppend(head, SetpointSuggestion(cfg, f), pick);
    Collect2(g[0], g[1], pick);
    SetpointPick(cfg, f, pick);
  }

  lemma AverageSilent<T>(cfg: ReportConfig, s: Summary, pick: Section -> seq<T>)
    requires pick(Bullet(FaultAverages(cfg.code, s.faultMeans))) == [] && pick(EmptyParagraph) == []
    ensures Collect(AverageBlock(cfg, s), pick) == []
  {
    AveragePick(cfg, s, pick);
  }

  lemma SuggestionSilent<T>(cfg: ReportConfig, s: Summary, f: Frame, pick: Section -> seq<T>)
    requires cfg.setpoint.Some? ==> cfg.setpoint.value in f.columns
    requires pick(Heading("Suggestions based on data analysis", 2)) == []
    requires forall m :: pick(Bullet(Suggestion(m))) == []
    ensures Collect(SuggestionBlock(cfg, s, f), pick) == []
  {
    SuggestionPick(cfg, s, f, pick);
  }

  /** No suggestion bullet carries averages or a generation stamp. */
  lemma SuggestionsQuiet()
    ensures forall m :: AveragesOf(Bullet(Suggestion(m))) == []
    ensures forall m :: StampsOf(Bullet(Suggestion(m))) == []
  {
    forall m ensures AveragesOf(Bullet(Suggestion(m))) == [] && StampsOf(Bullet(Suggestion(m))) == [] {
      SuggestionViews(m);
    }
  }

  /** What the run-based views see in the introduction. */
  lemma IntroViews(code: FaultCode)
    ensures BulletLines(Paragraph(Normal, [Run(Intro(code), Plain)])) == []
    ensures SuggestionsOf(Paragraph(Normal, [Run(Intro(code), Plain)])) == []
    ensures AveragesOf(Paragraph(Normal, [Run(Intro(code), Plain)])) == []
    ensures StampsOf(Paragraph(Normal, [Run(Intro(code), Plain)])) == []
  {
    OneRunViews(Normal, Run(Intro(code), Plain));
  }

  /** What the run-based views see in the footer. */
  lemma FooterViews(at: int)
    ensures BulletLines(Footer(at)) == [] && SuggestionsOf(Footer(at)) == []
    ensures AveragesOf(Footer(at)) == [] && StampsOf(Footer(at)) == [at]
  {
    OneRunViews(Normal, Run(Generated(at), Emphasis));
  }

  /** What the run-based views see in a suggestion bullet. */
  lemma SuggestionViews(m: Message)
    ensures BulletLines(Bullet(Suggestion(m))) == [Suggestion(m)]
    ensures SuggestionsOf(Bullet(Suggestion(m))) == [m]
    ensures AveragesOf(Bullet(Suggestion(m))) == []
    ensures StampsOf(Bullet(Suggestion(m))) == []
  {
    BulletViews(Suggestion(m));
  }

  /** Peeling the last describe block off: its two sections end the describe sections. */
  lemma DescribeStep(blocks: seq<DescribeBlock>, f: Frame)
    requires blocks != [] && HasColumns(DescribeColumns(blocks), f)
    ensures HasColumns(DescribeColumns(blocks[..|blocks| - 1]), f)
    ensures blocks[|blocks| - 1].column in f.columns
    ensures DescribeSections(blocks, f)
         == DescribeSections(blocks[..|blocks| - 1], f)
            + [Heading(blocks[|blocks| - 1].heading, 2), Bullet(Description(f.columns[blocks[|blocks| - 1].column]))]
  {
    DescribeColumnsPrefix(blocks, |blocks| - 1);
    HasColumnsPrefix(DescribeColumns(blocks), |blocks| - 1, f);
    assert DescribeColumns(blocks)[|blocks| - 1] == blocks[|blocks| - 1].column;
  }

  /** The headings of the describe blocks, in order. */
  function Headings(blocks: seq<DescribeBlock>): seq<string>
  {
    if blocks == [] then [] else Headings(blocks[..|blocks| - 1]) + [blocks[|blocks| - 1].heading]
  }

  /** The `describe()` lines of the describe blocks, in order. */
  function Descriptions(blocks: seq<DescribeBlock>, f: Frame): (ds: seq<Line>)
    requires HasColumns(DescribeColumns(blocks), f)
    ensures |ds| == |blocks|
  {
    if blocks == [] then []
    else
      var b := blocks[|blocks| - 1];
      DescribeColumnsPrefix(blocks, |blocks| - 1);
      HasColumnsPrefix(DescribeColumns(blocks), |blocks| - 1, f);
      assert b.column == DescribeColumns(blocks)[|blocks| - 1];
      Descriptions(blocks[..|blocks| - 1], f) + [Description(f.columns[b.column])]
  }

  lemma {:induction false} DescribeHeadings(blocks: seq<DescribeBlock>, f: Frame)
    requires HasColumns(DescribeColumns(blocks), f)
    ensures Collect(DescribeSections(blocks, f), HeadingText) == Headings(blocks)
  {
    if blocks != [] {
      var n := |blocks|;
      var b := blocks[n - 1];
      DescribeStep(blocks, f);
      DescribeHeadings(blocks[..n - 1], f);
      CollectAppend(DescribeSections(blocks[..n - 1], f), [Heading(b.heading, 2), Bullet(Description(f.columns[b.column]))], HeadingText);
      Collect2(Heading(b.heading, 2), Bullet(Description(f.columns[b.column])), HeadingText);
    }
  }

  lemma {:induction false} DescribeBullets(blocks: seq<DescribeBlock>, f: Frame)
    requires HasColumns(DescribeColumns(blocks), f)
    ensures Collect(DescribeSections(blocks, f), BulletLines) == Descriptions(blocks, f)
  {
    if blocks != [] {
      var n := |blocks|;
      var b := blocks[n - 1];
      DescribeStep(blocks, f);
      var line := Description(f.columns[b.column]);
      var prefix := DescribeSections(blocks[..n - 1], f);
      DescribeBullets(blocks[..n - 1], f);
      CollectAppend(prefix, [Heading(b.heading, 2), Bullet(line)], BulletLines);
      Collect2(Heading(b.heading, 2), Bullet(line), BulletLines);
      BulletViews(line);
      assert Descriptions(blocks, f) == Descriptions(blocks[..n - 1], f) + [line];
    }
  }

  /** A describe block carries no suggestion, averages or generation stamp. */
  lemma DescriptionViews()
    ensures forall xs :: SuggestionsOf(Bullet(Description(xs))) == []
    ensures forall xs :: AveragesOf(Bullet(Description(xs))) == []
    ensures forall xs :: StampsOf(Bullet(Description(xs))) == []
    ensures forall h :: SuggestionsOf(Heading(h, 2)) == [] && AveragesOf(Heading(h, 2)) == []
    ensures forall h :: StampsOf(Heading(h, 2)) == [] && PictureOf(Heading(h, 2)) == []
  {
    forall xs ensures SuggestionsOf(Bullet(Description(xs))) == [] && AveragesOf(Bullet(Description(xs))) == []
                      && StampsOf(Bullet(Description(xs))) == [] {
      BulletViews(Description(xs));
    }
  }

  lemma {:induction false} DescribeSilent<T>(blocks: seq<DescribeBlock>, f: Frame, pick: Section -> seq<T>)
    requires HasColumns(DescribeColumns(blocks), f)
    requires forall h :: pick(Heading(h, 2)) == []
    requires forall xs :: pick(Bullet(Description(xs))) == []
    ensures Collect(DescribeSections(blocks, f), pick) == []
  {
    if blocks != [] {
      var n := |blocks|;
      var b := blocks[n - 1];
      DescribeStep(blocks, f);
      DescribeSilent(blocks[..n - 1], f, pick);
      CollectAppend(DescribeSections(blocks[..n - 1], f), [Heading(b.heading, 2), Bullet(Description(f.columns[b.column]))], pick);
      Collect2(Heading(b.heading, 2), Bullet(Description(f.columns[b.column])), pick);
    }
  }

  lemma SetpointPick<T>(cfg: ReportConfig, f: Frame, pick: Section -> seq<T>)
    requires cfg.setpoint.Some? ==> cfg.setpoint.value in f.columns
    ensures cfg.setpoint.None? ==> Collect(SetpointSuggestion(cfg, f), pick) == []
    ensures cfg.setpoint.Some? ==>
              Collect(SetpointSuggestion(cfg, f), pick) == pick(Bullet(Suggestion(SetpointMessage(f.columns[cfg.setpoint.value]))))
  {
    if cfg.setpoint.Some? {
      Collect1(Bullet(Suggestion(SetpointMessage(f.columns[cfg.setpoint.value]))), pick);
    }
  }

  // What each view finds in each block; one fact per lemma keeps every proof small.

  lemma PreambleHeadingsView(cfg: ReportConfig)
    ensures Collect(Preamble(cfg), HeadingText) == [cfg.title, "Dataset Plot", "Dataset Statistics"]
  {
    PreamblePick(cfg, HeadingText);
  }

  lemma PreamblePicturesView(cfg: ReportConfig)
    ensures Collect(Preamble(cfg), PictureOf) == [Definition(cfg.code), TimeSeriesPlot(cfg.code)]
  {
    PreamblePick(cfg, PictureOf);
  }

  lemma PreambleLinesView(cfg: ReportConfig)
    ensures Collect(Preamble(cfg), BulletLines) == []
  {
    IntroViews(cfg.code);
    PreambleSilent(cfg, BulletLines);
  }

  lemma PreambleSuggestionsView(cfg: ReportConfig)
    ensures Collect(Preamble(cfg), SuggestionsOf) == []
  {
    IntroViews(cfg.code);
    PreambleSilent(cfg, SuggestionsOf);
  }

  lemma PreambleAveragesView(cfg: ReportConfig)
    ensures Collect(Preamble(cfg), AveragesOf) == []
  {
    IntroViews(cfg.code);
    PreambleSilent(cfg, AveragesOf);
  }

  lemma PreambleStampsView(cfg: ReportConfig)
    ensures Collect(Preamble(cfg), StampsOf) == []
  {
    IntroViews(cfg.code);
    PreambleSilent(cfg, StampsOf);
  }

  lemma StatisticHeadingsView(s: Summary)
    ensures Collect(StatisticBullets(s), HeadingText) == []
  {
    StatisticsPick(s, HeadingText);
  }

  lemma StatisticPicturesView(s: Summary)
    ensures Collect(StatisticBullets(s), PictureOf) == []
  {
    StatisticsPick(s, PictureOf);
  }

  lemma StatisticLinesView(s: Summary)
    ensures Collect(StatisticBullets(s), BulletLines) == StatisticLines(s)
  {
    BulletViews(TotalDays(s.totalDays));
    BulletViews(TotalHours(s.totalHours));
    BulletViews(FlaggedHours(s.flaggedHours));
    BulletViews(TruePercent(s.percentTrue));
    BulletViews(FalsePercent(s.percentFalse));
    StatisticsPick(s, BulletLines);
  }

  lemma StatisticSuggestionsView(s: Summary)
    ensures Collect(StatisticBullets(s), SuggestionsOf) == []
  {
    BulletViews(TotalDays(s.totalDays));
    BulletViews(TotalHours(s.totalHours));
    BulletViews(FlaggedHours(s.flaggedHours));
    BulletViews(TruePercent(s.percentTrue));
    BulletViews(FalsePercent(s.percentFalse));
    StatisticsPick(s, SuggestionsOf);
  }

  lemma StatisticAveragesView(s: Summary)
    ensures Collect(StatisticBullets(s), AveragesOf) == []
  {
    BulletViews(TotalDays(s.totalDays));
    BulletViews(TotalHours(s.totalHours));
    BulletViews(FlaggedHours(s.flaggedHours));
    BulletViews(TruePercent(s.percentTrue));
    BulletViews(FalsePercent(s.percentFalse));
    StatisticsPick(s, AveragesOf);
  }

  lemma StatisticStampsView(s: Summary)
    ensures Collect(StatisticBullets(s), StampsOf) == []
  {
    BulletViews(TotalDays(s.totalDays));
    BulletViews(TotalHours(s.totalHours));
    BulletViews(FlaggedHours(s.flaggedHours));
    BulletViews(TruePercent(s.percentTrue));
    BulletViews(FalsePercent(s.percentFalse));
    StatisticsPick(s, StampsOf);
  }

  lemma HistogramHeadingsView(f: Frame)
    requires |f.flag| == |f.index|
    ensures Collect(HistogramBlock(f), HeadingText) == ["Time-of-day Histogram Plots"]
  {
    HistogramPick(f, HeadingText);
  }

  lemma HistogramPicturesView(f: Frame)
    requires |f.flag| == |f.index|
    ensures Collect(HistogramBlock(f), PictureOf) == [HourHistogramPlot(HourSample(f.index, f.flag))]
  {
    HistogramPick(f, PictureOf);
  }

  lemma HistogramLinesView(f: Frame)
    requires |f.flag| == |f.index|
    ensures Collect(HistogramBlock(f), BulletLines) == []
  {
    HistogramPick(f, BulletLines);
  }

  lemma HistogramSuggestionsView(f: Frame)
    requires |f.flag| == |f.index|
    ensures Collect(HistogramBlock(f), SuggestionsOf) == []
  {
    HistogramPick(f, SuggestionsOf);
  }

  lemma HistogramAveragesView(f: Frame)
    requires |f.flag| == |f.index|
    ensures Collect(HistogramBlock(f), AveragesOf) == []
  {
    HistogramPick(f, AveragesOf);
  }

  lemma HistogramStampsView(f: Frame)
    requires |f.flag| == |f.index|
    ensures Collect(HistogramBlock(f), StampsOf) == []
  {
    HistogramPick(f, StampsOf);
  }

  lemma AverageHeadingsView(cfg: ReportConfig, s: Summary)
    ensures Collect(AverageBlock(cfg, s), HeadingText) == []
  {
    AveragePick(cfg, s, HeadingText);
  }

  lemma AveragePicturesView(cfg: ReportConfig, s: Summary)
    ensures Collect(AverageBlock(cfg, s), PictureOf) == []
  {
    AveragePick(cfg, s, PictureOf);
  }

  lemma AverageLinesView(cfg: ReportConfig, s: Summary)
    ensures Collect(AverageBlock(cfg, s), BulletLines) == if AverageDefined(s) then [FaultAverages(cfg.code, s.faultMeans)] else []
  {
    BulletViews(FaultAverages(cfg.code, s.faultMeans));
    AveragePick(cfg, s, BulletLines);
  }

  lemma AverageSuggestionsView(cfg: ReportConfig, s: Summary)
    ensures Collect(AverageBlock(cfg, s), SuggestionsOf) == []
  {
    BulletViews(FaultAverages(cfg.code, s.faultMeans));
    AverageSilent(cfg, s, SuggestionsOf);
  }

  lemma AverageAveragesView(cfg: ReportConfig, s: Summary)
    ensures Collect(AverageBlock(cfg, s), AveragesOf) == if AverageDefined(s) then [s.faultMeans] else []
  {
    BulletViews(FaultAverages(cfg.code, s.faultMeans));
    AveragePick(cfg, s, AveragesOf);
  }

  lemma AverageStampsView(cfg: ReportConfig, s: Summary)
    ensures Collect(AverageBlock(cfg, s), StampsOf) == []
  {
    BulletViews(FaultAverages(cfg.code, s.faultMeans));
    AverageSilent(cfg, s, StampsOf);
  }

  lemma SuggestionHeadingsView(cfg: ReportConfig, s: Summary, f: Frame)
    requires cfg.setpoint.Some? ==> cfg.setpoint.value in f.columns
    ensures Collect(SuggestionBlock(cfg, s, f), HeadingText) == ["Suggestions based on data analysis"]
  {
    SuggestionPick(cfg, s, f, HeadingText);
  }

  lemma SuggestionPicturesView(cfg: ReportConfig, s: Summary, f: Frame)
    requires cfg.setpoint.Some? ==> cfg.setpoint.value in f.columns
    ensures Collect(SuggestionBlock(cfg, s, f), PictureOf) == []
  {
    SuggestionPick(cfg, s, f, PictureOf);
  }

  lemma SuggestionLinesView(cfg: ReportConfig, s: Summary, f: Frame)
    requires cfg.setpoint.Some? ==> cfg.setpoint.value in f.columns
    ensures Collect(SuggestionBlock(cfg, s, f), BulletLines)
         == [Suggestion(PercentMessage(cfg.percentRule, s.percentTrue))]
         + (if cfg.setpoint.Some? then [Suggestion(SetpointMessage(f.columns[cfg.setpoint.value]))] else [])
  {
    SuggestionViews(PercentMessage(cfg.percentRule, s.percentTrue));
    if cfg.setpoint.Some? {
      SuggestionViews(SetpointMessage(f.columns[cfg.setpoint.value]));
    }
    SuggestionPick(cfg, s, f, BulletLines);
  }

  lemma SuggestionMessagesView(cfg: ReportConfig, s: Summary, f: Frame)
    requires cfg.setpoint.Some? ==> cfg.setpoint.value in f.columns
    ensures Collect(SuggestionBlock(cfg, s, f), SuggestionsOf)
         == [PercentMessage(cfg.percentRule, s.percentTrue)]
         + (if cfg.setpoint.Some? then [SetpointMessage(f.columns[cfg.setpoint.value])] else [])
  {
    SuggestionViews(PercentMessage(cfg.percentRule, s.percentTrue));
    if cfg.setpoint.Some? {
      SuggestionViews(SetpointMessage(f.columns[cfg.setpoint.value]));
    }
    SuggestionPick(cfg, s, f, SuggestionsOf);
  }

  lemma SuggestionAveragesView(cfg: ReportConfig, s: Summary, f: Frame)
    requires cfg.setpoint.Some? ==> cfg.setpoint.value in f.columns
    ensures Collect(SuggestionBlock(cfg, s, f), AveragesOf) == []
  {
    SuggestionsQuiet();
    SuggestionSilent(cfg, s, f, AveragesOf);
  }

  lemma SuggestionStampsView(cfg: ReportConfig, s: Summary, f: Frame)
    requires cfg.setpoint.Some? ==> cfg.setpoint.value in f.columns
    ensures Collect(SuggestionBlock(cfg, s, f), StampsOf) == []
  {
    SuggestionsQuiet();
    SuggestionSilent(cfg, s, f, StampsOf);
  }

  /** A report succeeds exactly when the frame has every column it reads, and is then Sections. */
  lemma ReportSucceedsIff(cfg: ReportConfig, f: Frame, at: int)
    requires Aligned(f)
    ensures Report(cfg, f, at).Success? <==> ColumnsPresent(cfg, f)
    ensures ColumnsPresent(cfg, f) ==> Report(cfg, f, at) == Success(Sections(cfg, f, at))
    ensures Report(cfg, f, at).Failure? ==>
      exists i :: 0 <= i < |RequiredColumns(cfg)| && Report(cfg, f, at).error == MissingColumn(RequiredColumns(cfg)[i])
                  && RequiredColumns(cfg)[i] !in f.columns
                  && forall j :: 0 <= j < i ==> RequiredColumns(cfg)[j] in f.columns
  {
    RequiredParts(cfg, f);
  }

  /** The headings of a report: the fixed ones, then one per describe block and the suggestions heading. */
  lemma LayoutOutline(cfg: ReportConfig, f: Frame, s: Summary, at: int)
    requires Readable(cfg, f)
    ensures Collect(Layout(cfg, f, s, at), HeadingText)
         == [cfg.title, "Dataset Plot", "Dataset Statistics", "Time-of-day Histogram Plots"]
            + Headings(cfg.describe) + ["Suggestions based on data analysis"]
  {
    SectionsCollect(cfg, f, s, at, HeadingText);
    DescribeHeadings(cfg.describe, f);
    PreambleHeadingsView(cfg);
    StatisticHeadingsView(s);
    HistogramHeadingsView(f);
    AverageHeadingsView(cfg, s);
    SuggestionHeadingsView(cfg, s, f);
    OutlineAssembly(Collect(Layout(cfg, f, s, at), HeadingText), Collect(Preamble(cfg), HeadingText),
                    Collect(StatisticBullets(s), HeadingText), Collect(HistogramBlock(f), HeadingText),
                    Collect(AverageBlock(cfg, s), HeadingText), Headings(cfg.describe),
                    Collect(SuggestionBlock(cfg, s, f), HeadingText), HeadingText(Footer(at)),
                    cfg.title, "Dataset Plot", "Dataset Statistics", "Time-of-day Histogram Plots",
                    "Suggestions based on data analysis");
  }

  /** A report holds three pictures: the definition, the time series and the hour histogram of the flagged rows. */
  lemma LayoutPictures(cfg: ReportConfig, f: Frame, s: Summary, at: int)
    requires Readable(cfg, f)
    ensures Collect(Layout(cfg, f, s, at), PictureOf)
         == [Definition(cfg.code), TimeSeriesPlot(cfg.code), HourHistogramPlot(HourSample(f.index, f.flag))]
    ensures |HourSample(f.index, f.flag)| == Count(f.flag)
    ensures forall k :: 0 <= k < |HourSample(f.index, f.flag)| ==> 0 <= HourSample(f.index, f.flag)[k] < HoursInDay
  {
    SectionsCollect(cfg, f, s, at, PictureOf);
    DescribeSilent(cfg.describe, f, PictureOf);
    PreamblePicturesView(cfg);
    StatisticPicturesView(s);
    HistogramPicturesView(f);
    AveragePicturesView(cfg, s);
    SuggestionPicturesView(cfg, s, f);
    PictureAssembly(Collect(Layout(cfg, f, s, at), PictureOf), Collect(Preamble(cfg), PictureOf),
                    Collect(StatisticBullets(s), PictureOf), Collect(HistogramBlock(f), PictureOf),
                    Collect(AverageBlock(cfg, s), PictureOf), Collect(DescribeSections(cfg.describe, f), PictureOf),
                    Collect(SuggestionBlock(cfg, s, f), PictureOf), PictureOf(Footer(at)),
                    Definition(cfg.code), TimeSeriesPlot(cfg.code), HourHistogramPlot(HourSample(f.index, f.flag)));
    HourSampleShape(f.index, f.flag);
  }

  /** Sequence bookkeeping for LayoutOutline: the fixed headings merge into one literal. */
  lemma OutlineAssembly<T>(whole: seq<T>, pre: seq<T>, stats: seq<T>, hist: seq<T>, avg: seq<T>,
                           desc: seq<T>, sugg: seq<T>, foot: seq<T>, a: T, b: T, c: T, d: T, e: T)
    requires whole == pre + stats + hist + avg + desc + sugg + foot
    requires pre == [a, b, c] && stats == [] && hist == [d] && avg == [] && sugg == [e] && foot == []
    ensures whole == [a, b, c, d] + desc + [e]
  {
    assert [a, b, c] + [d] == [a, b, c, d];
  }

  /** Sequence bookkeeping for LayoutPictures. */
  lemma PictureAssembly<T>(whole: seq<T>, pre: seq<T>, stats: seq<T>, hist: seq<T>, avg: seq<T>,
                           desc: seq<T>, sugg: seq<T>, foot: seq<T>, a: T, b: T, c: T)
    requires whole == pre + stats + hist + avg + desc + sugg + foot
    requires pre == [a, b] && stats == [] && hist == [c] && avg == [] && desc == [] && sugg == [] && foot == []
    ensures whole == [a, b, c]
  {
    assert [a, b] + [c] == [a, b, c];
  }

  /** Sequence bookkeeping for a view that sees at most one block besides the preamble, statistics and histogram. */
  lemma SingleBlock<T>(whole: seq<T>, pre: seq<T>, stats: seq<T>, hist: seq<T>, avg: seq<T>,
                       desc: seq<T>, sugg: seq<T>, foot: seq<T>)
    requires whole == pre + stats + hist + avg + desc + sugg + foot
    requires pre == [] && stats == [] && hist == [] && desc == []
    ensures sugg == [] && foot == [] ==> whole == avg
    ensures avg == [] && foot == [] ==> whole == sugg
    ensures avg == [] && sugg == [] ==> whole == foot
  {
  }

  /** Sequence bookkeeping for LayoutBullets: drop the empty blocks and split the suggestions. */
  lemma BulletAssembly<T>(whole: seq<T>, pre: seq<T>, stats: seq<T>, hist: seq<T>, avg: seq<T>,
                          desc: seq<T>, sugg: seq<T>, foot: seq<T>, x: seq<T>, y: seq<T>)
    requires whole == pre + stats + hist + avg + desc + sugg + foot
    requires pre == [] && hist == [] && foot == [] && sugg == x + y
    ensures whole == stats + avg + desc + x + y
  {
    assert stats + avg + desc + (x + y) == stats + avg + desc + x + y;
  }

  /** The bulleted lines of a report, in order: statistics, fault averages, descriptions, suggestions. */
  lemma LayoutBullets(cfg: ReportConfig, f: Frame, s: Summary, at: int)
    requires Readable(cfg, f)
    ensures Collect(Layout(cfg, f, s, at), BulletLines)
         == StatisticLines(s)
            + (if AverageDefined(s) then [FaultAverages(cfg.code, s.faultMeans)] else [])
            + Descriptions(cfg.describe, f)
            + [Suggestion(PercentMessage(cfg.percentRule, s.percentTrue))]
            + (if cfg.setpoint.Some? then [Suggestion(SetpointMessage(f.columns[cfg.setpoint.value]))] else [])
  {
    SectionsCollect(cfg, f, s, at, BulletLines);
    DescribeBullets(cfg.describe, f);
    PreambleLinesView(cfg);
    StatisticLinesView(s);
    HistogramLinesView(f);
    AverageLinesView(cfg, s);
    SuggestionLinesView(cfg, s, f);
    FooterViews(at);
    BulletAssembly(Collect(Layout(cfg, f, s, at), BulletLines), Collect(Preamble(cfg), BulletLines),
                   Collect(StatisticBullets(s), BulletLines), Collect(HistogramBlock(f), BulletLines),
                   Collect(AverageBlock(cfg, s), BulletLines), Descriptions(cfg.describe, f),
                   Collect(SuggestionBlock(cfg, s, f), BulletLines), BulletLines(Footer(at)),
                   [Suggestion(PercentMessage(cfg.percentRule, s.percentTrue))],
                   if cfg.setpoint.Some? then [Suggestion(SetpointMessage(f.columns[cfg.setpoint.value]))] else []);
  }

  /** The fault averages appear exactly when the first conditional mean is defined. */
  lemma LayoutAverages(cfg: ReportConfig, f: Frame, s: Summary, at: int)
    requires Readable(cfg, f)
    ensures Collect(Layout(cfg, f, s, at), AveragesOf) == if AverageDefined(s) then [s.faultMeans] else []
  {
    SectionsCollect(cfg, f, s, at, AveragesOf);
    DescriptionViews();
    DescribeSilent(cfg.describe, f, AveragesOf);
    PreambleAveragesView(cfg);
    StatisticAveragesView(s);
    HistogramAveragesView(f);
    AverageAveragesView(cfg, s);
    SuggestionAveragesView(cfg, s, f);
    FooterViews(at);
    SingleBlock(Collect(Layout(cfg, f, s, at), AveragesOf), Collect(Preamble(cfg), AveragesOf),
                Collect(StatisticBullets(s), AveragesOf), Collect(HistogramBlock(f), AveragesOf),
                Collect(AverageBlock(cfg, s), AveragesOf), Collect(DescribeSections(cfg.describe, f), AveragesOf),
                Collect(SuggestionBlock(cfg, s, f), AveragesOf), AveragesOf(Footer(at)));
  }

  /** The suggestions: the percent rule's message, then the setpoint's when one is configured. */
  lemma LayoutSuggestions(cfg: ReportConfig, f: Frame, s: Summary, at: int)
    requires Readable(cfg, f)
    ensures Collect(Layout(cfg, f, s, at), SuggestionsOf)
         == [PercentMessage(cfg.percentRule, s.percentTrue)]
            + (if cfg.setpoint.Some? then [SetpointMessage(f.columns[cfg.setpoint.value])] else [])
  {
    SectionsCollect(cfg, f, s, at, SuggestionsOf);
    DescriptionViews();
    DescribeSilent(cfg.describe, f, SuggestionsOf);
    PreambleSuggestionsView(cfg);
    StatisticSuggestionsView(s);
    HistogramSuggestionsView(f);
    AverageSuggestionsView(cfg, s);
    SuggestionMessagesView(cfg, s, f);
    FooterViews(at);
    SingleBlock(Collect(Layout(cfg, f, s, at), SuggestionsOf), Collect(Preamble(cfg), SuggestionsOf),
                Collect(StatisticBullets(s), SuggestionsOf), Collect(HistogramBlock(f), SuggestionsOf),
                Collect(AverageBlock(cfg, s), SuggestionsOf), Collect(DescribeSections(cfg.describe, f), SuggestionsOf),
                Collect(SuggestionBlock(cfg, s, f), SuggestionsOf), SuggestionsOf(Footer(at)));
  }

  /** A report ends with the footer, and the generation time appears nowhere else. */
  lemma LayoutFooter(cfg: ReportConfig, f: Frame, s: Summary, at: int)
    requires Readable(cfg, f)
    ensures Layout(cfg, f, s, at)[|Layout(cfg, f, s, at)| - 1] == Footer(at)
    ensures Collect(Layout(cfg, f, s, at), StampsOf) == [at]
  {
    SectionsCollect(cfg, f, s, at, StampsOf);
    DescriptionViews();
    DescribeSilent(cfg.describe, f, StampsOf);
    PreambleStampsView(cfg);
    StatisticStampsView(s);
    HistogramStampsView(f);
    AverageStampsView(cfg, s);
    SuggestionStampsView(cfg, s, f);
    FooterViews(at);
    SingleBlock(Collect(Layout(cfg, f, s, at), StampsOf), Collect(Preamble(cfg), StampsOf),
                Collect(StatisticBullets(s), StampsOf), Collect(HistogramBlock(f), StampsOf),
                Collect(AverageBlock(cfg, s), StampsOf), Collect(DescribeSections(cfg.describe, f), StampsOf),
                Collect(SuggestionBlock(cfg, s, f), StampsOf), StampsOf(Footer(at)));
  }

  lemma {:induction false} DescribeLength(blocks: seq<DescribeBlock>, f: Frame)
    requires HasColumns(DescribeColumns(blocks), f)
    ensures |DescribeSections(blocks, f)| == 2 * |blocks|
  {
    if blocks != [] {
      DescribeStep(blocks, f);
      DescribeLength(blocks[..|blocks| - 1], f);
    }
  }

  /** Eighteen fixed sections, two per describe block, and the two guarded ones. */
  lemma LayoutLength(cfg: ReportConfig, f: Frame, s: Summary, at: int)
    requires Readable(cfg, f)
    ensures |Layout(cfg, f, s, at)| == 18 + 2 * |cfg.describe|
              + (if AverageDefined(s) then 1 else 0) + (if cfg.setpoint.Some? then 1 else 0)
  {
    DescribeLength(cfg.describe, f);
  }

  // --------------------------------------------- reports of actual frames

  /** The average bullet appears exactly when a mean column is configured and some row is flagged. */
  lemma AverageBulletIff(cfg: ReportConfig, f: Frame)
    requires Aligned(f) && HasColumns(cfg.meanColumns, f)
    ensures AverageDefined(Stats(cfg, f)) <==> |cfg.meanColumns| > 0 && Count(f.flag) > 0
  {
    var s := Stats(cfg, f);
    if |cfg.meanColumns| > 0 {
      assert s.faultMeans[0] == RoundOption(ConditionalMean(f.columns[cfg.meanColumns[0]], f.flag));
      ConditionalMeanDefinedIff(f.columns[cfg.meanColumns[0]], f.flag);
    }
  }

  /** The percent the rules compare is the share of flagged rows rounded to hundredths, NaN on an empty frame. */
  lemma ComparedPercent(cfg: ReportConfig, f: Frame)
    requires Aligned(f) && HasColumns(cfg.meanColumns, f)
    ensures Stats(cfg, f).percentTrue
         == if |f.flag| > 0 then Some(Round2(100.0 * Count(f.flag) as real / |f.flag| as real)) else None
  {
    PercentShare(f.flag);
  }

  /** The headings of a successful report, describe headings in the configured order. */
  lemma ReportOutline(cfg: ReportConfig, f: Frame, at: int)
    requires Aligned(f) && ColumnsPresent(cfg, f)
    ensures Report(cfg, f, at).Success?
    ensures Collect(Report(cfg, f, at).value, HeadingText)
         == [cfg.title, "Dataset Plot", "Dataset Statistics", "Time-of-day Histogram Plots"]
            + Headings(cfg.describe) + ["Suggestions based on data analysis"]
  {
    ReportSucceedsIff(cfg, f, at);
    LayoutOutline(cfg, f, Stats(cfg, f), at);
  }

  /** The suggestions of a successful report, chosen from the rounded flagged percentage and the setpoint. */
  lemma ReportSuggestions(cfg: ReportConfig, f: Frame, at: int)
    requires Aligned(f) && ColumnsPresent(cfg, f)
    ensures Report(cfg, f, at).Success?
    ensures Collect(Report(cfg, f, at).value, SuggestionsOf)
         == [PercentMessage(cfg.percentRule, RoundOption(PercentTrue(f.flag)))]
            + (if cfg.setpoint.Some? then [SetpointMessage(f.columns[cfg.setpoint.value])] else [])
  {
    ReportSucceedsIff(cfg, f, at);
    LayoutSuggestions(cfg, f, Stats(cfg, f), at);
  }

  /** A successful report carries the fault averages exactly when a mean column is configured and some row is flagged. */
  lemma ReportAverages(cfg: ReportConfig, f: Frame, at: int)
    requires Aligned(f) && ColumnsPresent(cfg, f)
    ensures Report(cfg, f, at).Success?
    ensures Collect(Report(cfg, f, at).value, AveragesOf)
         == if |cfg.meanColumns| > 0 && Count(f.flag) > 0 then [Stats(cfg, f).faultMeans] else []
  {
    ReportSucceedsIff(cfg, f, at);
    LayoutAverages(cfg, f, Stats(cfg, f), at);
    AverageBulletIff(cfg, f);
  }
}
