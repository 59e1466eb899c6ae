# open-fdd fault reports, modelled in Dafny

This project models the report generator of open-fdd (`reports/__init__.py`). The package ships two report classes:

- `FaultCodeOneReport` covers air-handler fault condition 1, a supply fan that cannot hold duct static pressure.
- `FaultCodeTwoReport` covers fault condition 2, a mixed-air temperature outside the return/outside range.

Both classes take a pandas DataFrame indexed by timestamps. The frame holds a 0/1 fault flag column and the sensor columns. From it, each class writes a python-docx document:

- a title, an introduction and a definition figure;
- a time-series plot;
- five statistics bullets computed by `summarize_fault_times`;
- an hour-of-day histogram of the flagged rows;
- a fault-average bullet, written only when the first conditional mean is not NaN;
- one `describe()` block per sensor column;
- threshold-driven suggestions;
- a "Report generated" stamp.

The two classes are the same algorithm with different columns, headings and thresholds. The model writes that algorithm once, over a `ReportConfig`. `FaultCodeOne` and `FaultCodeTwo` are the two configurations.

Modules:

- `Series`: the pandas operations used, over exact reals, with NaN and NaT as `None` and skip-NaN aggregations. The operations are `diff`, `sum`, `mean`, `where`, `dropna` and the flag weighting.
- `Data`: the frame, and the `KeyError` raised on the first absent column in read order.
- `Rounding`: Python's `round(x, 2)`, half-to-even on exact decimals.
- `FaultStats`: `summarize_fault_times`, with what its numbers mean. Elapsed time telescopes, flagged time is bounded by elapsed time, the percentages are complementary shares, and each conditional mean is defined iff some row is flagged.
- `HourHistogram`: the hour-of-day sample of `create_hist_plot` and its 24 frequencies.
- `Narrative`: the suggestion rules, including NaN comparisons and `std() == 0`.
- `Docx`: a `Document` class whose methods mirror `add_heading`, `add_paragraph`, `add_picture`, `paragraph.style`, `add_run` and `run.style`. It also has views that pick headings, pictures, bullet text, suggestions, averages and stamps out of a document.
- `Reports`: `create_report`. `Report` is the finished document as a value. `CreateReport` is an imperative method that appends the sections one python-docx call at a time, and it is proved to produce exactly `Report` (or the same missing-column error). The lemmas state what any report contains.
- `Conditions`: the two shipped reports. For each, the model states which columns it needs and in which order a missing one is reported, its exact headings, its fault averages and its suggestions.

Notes on the code's behaviour, which the model follows:

- The code writes five statistics bullets.
- The histogram uses matplotlib's default binning. The model keeps the hour sample handed to `ax.hist`, plus an exact 24-bucket count of it.
- `percent_true` is rounded before it is compared with the 5 % thresholds. `percent_false` is `round(100 - percent_true, 2)`; it is proved equal to the exact complement of the rounded `percent_true`.
- `std()` uses ddof = 1. A constant setpoint series of one row therefore has NaN spread and reads "reset detected".
- Fault condition 2 chooses "out of calibration" when fewer than 5 % of rows are flagged (`reports/__init__.py:469`). Its sentence nevertheless calls the percentage "high". The model keeps this polarity exactly as written.

## Model

| member | source | states |
|---|---|---|
| Series.NanCountWhere | reports/__init__.py:75-77 | `where(flag == 1)` keeps exactly one defined entry per flagged row |
| Series.SumOfFlags | reports/__init__.py:71 | summing the 0/1 flag column counts the flagged rows |
| Series.ScaleBounds | reports/__init__.py:69 | weighting non-negative intervals by 0/1 flags gives a sum between 0 and the unweighted sum |
| Series.DropNaLength | reports/__init__.py:99 | `dropna` keeps as many entries as are defined |
| Series.CountBounds | reports/__init__.py:71 | the flagged-row count is at most the row count; 0 iff no flag is set; the row count when every flag is set |
| Data.FirstMissing | reports/__init__.py:43-47 | the first absent column in read order: None iff every name is present, else a name that is absent with all earlier names present |
| Data.FirstMissingAppend | reports/__init__.py:43-77 | reading two column lists in turn fails at the first list's first absent column, else at the second's |
| Data.HasColumnsAppend | reports/__init__.py:43-77 | two column lists together are present iff each is |
| Rounding.RoundHalfEven | reports/__init__.py:65 | Python's `round`: an integer within 1/2 of its argument, the even one when the argument lies halfway between two; whole numbers are unchanged |
| Rounding.Round2 | reports/__init__.py:65 | `round(x, 2)` is a whole number of hundredths within 0.005 of `x`, the even hundredth when `x` lies halfway between two |
| Rounding.RoundOption | reports/__init__.py:76 | rounding NaN gives NaN and a number gives a number |
| Rounding.Round2Monotone | reports/__init__.py:71 | `round(_, 2)` preserves order |
| Rounding.Round2Exact | reports/__init__.py:73 | a whole number of hundredths is unchanged by `round(_, 2)` |
| Rounding.Round2Within | reports/__init__.py:71 | a value within whole-hundredth bounds stays within them after rounding |
| Rounding.ComplementRounded | reports/__init__.py:73 | `round(100 - round(p, 2), 2)` equals `100 - round(p, 2)` exactly |
| FaultStats.Summarize | reports/__init__.py:61-85 | fails, with the first absent column, iff a conditional-mean column is absent; otherwise gives, for each mean column in order, the rounded mean of that column over the flagged rows |
| FaultStats.ElapsedIsSpan | reports/__init__.py:64-67 | the sum of the index deltas is last minus first timestamp, 0 for fewer than two rows |
| FaultStats.FlaggedWithinElapsed | reports/__init__.py:69 | flagged time is between 0 and the total time; 0 with no flag set, the total with every flag set |
| FaultStats.FirstRowFlagIgnored | reports/__init__.py:64-69 | the first row's flag never changes the flagged time, because its delta is NaT |
| FaultStats.PercentShare | reports/__init__.py:71-73 | percent True is NaN iff the frame is empty; otherwise it is 100 × flagged rows / rows, lies in [0, 100], and adds to 100 with percent False |
| FaultStats.PercentExtremes | reports/__init__.py:71-73 | no flag set gives 0 % / 100 %; every flag set gives 100 % / 0 % |
| FaultStats.PercentTrueOfCount | reports/__init__.py:71 | the flag mean × 100 is the flagged-row count over the row count × 100 |
| FaultStats.ConditionalMeanDefinedIff | reports/__init__.py:75-77 | the mean over flagged rows is NaN exactly when no row is flagged |
| FaultStats.ConditionalMeanAllFlagged | reports/__init__.py:75-77 | with every row flagged, the conditional mean is the plain mean |
| FaultStats.ConditionalMeanBounded | reports/__init__.py:75-77 | a defined conditional mean lies within any bounds of the column |
| FaultStats.ConditionalMeanWithinRange | reports/__init__.py:75-77 | a defined conditional mean lies between the column's minimum and maximum |
| FaultStats.Min | reports/__init__.py:75-77 | a reading of the column no greater than any other |
| FaultStats.Max | reports/__init__.py:75-77 | a reading of the column no smaller than any other |
| FaultStats.RoundedShare | reports/__init__.py:71-73 | the rounded percent True is defined iff the frame is non-empty, lies in [0, 100] within 0.005 of the exact share, and its rounded complement is exactly 100 minus it |
| FaultStats.SummaryFacts | reports/__init__.py:61-327 | on a strictly increasing index, a summary's hours span first to last timestamp, its days are the hours / 24 rounded, flagged hours are bounded by total hours, percent True and False are complementary and defined iff rows exist, and each mean is defined iff a row is flagged; one calculation for both classes, whose summaries differ only in their conditional-mean columns (lines 61-85 and 294-327) |
| HourHistogram.HourOfDay | reports/__init__.py:95 | `index.hour` lies in 0..23 |
| HourHistogram.HourSampleStep | reports/__init__.py:95-99 | a flagged row appends its hour to the histogram sample; an unflagged row adds nothing |
| HourHistogram.HourSampleShape | reports/__init__.py:95-99 | the histogram sample has one hour of day per flagged row |
| HourHistogram.Buckets | reports/__init__.py:99 | 24 frequencies, each the multiplicity of its hour in the sample |
| HourHistogram.BucketIsRowCount | reports/__init__.py:95-99 | each hour's frequency is the number of flagged rows stamped in that hour |
| HourHistogram.BucketsTotal | reports/__init__.py:99 | the frequencies of a sample of hours add up to its size |
| HourHistogram.HistogramTotal | reports/__init__.py:95-346 | the histogram counts every flagged row once; it is empty when nothing is flagged (both classes, lines 95-99 and 342-346) |
| Narrative.FaultOnePercentRule | reports/__init__.py:217-225 | the poor-fan sentence is chosen iff percent True is a number above 5; otherwise, including NaN, the good-pressure sentence |
| Narrative.FaultTwoPercentRule | reports/__init__.py:469-476 | "out of calibration" is chosen iff percent True is a number below 5; otherwise, including NaN, "within calibration" |
| Narrative.SetpointRule | reports/__init__.py:231-235 | "no reset (BAD)" is chosen iff the setpoint has at least two readings and all are equal; otherwise "reset detected (Good)" |
| Narrative.SumSquaresZero | reports/__init__.py:231 | the squared deviations are non-negative and vanish iff every reading equals the centre |
| Docx.Document.constructor | reports/__init__.py:114 | a new document has no sections |
| Docx.Document.AddHeading | reports/__init__.py:115 | appends one heading of the given level; nothing else changes |
| Docx.Document.AddParagraph | reports/__init__.py:117-119 | appends one Normal paragraph, holding the text as its only run or no run, and returns its position |
| Docx.Document.AddPicture | reports/__init__.py:121-124 | appends one picture |
| Docx.Document.SetStyle | reports/__init__.py:147 | restyles one paragraph in place; every other section is unchanged |
| Docx.Document.AddRun | reports/__init__.py:148 | appends one plain run to one paragraph and returns its position; every other section is unchanged |
| Docx.Document.SetRunStyle | reports/__init__.py:239 | restyles one run in place; nothing else changes |
| Docx.Document.AddBullet | reports/__init__.py:146-148 | the add-paragraph, style "List Bullet", add-run idiom appends exactly one bullet |
| Docx.CollectAppend | reports/__init__.py:113-239 | what a view finds in two runs of sections is what it finds in each, in order |
| Reports.CreateReport | reports/__init__.py:105-482 | `create_report` either returns a fresh document whose sections are exactly `Report`, or fails with exactly `Report`'s missing-column error; both `create_report` methods (lines 105-240 and 352-482) are this one method over their configurations |
| Reports.ReadOrder | reports/__init__.py:127-231 | columns are read in order: plot, conditional means, describe blocks, setpoint; a report fails at the first absent column of the first group that lacks one |
| Reports.RequiredParts | reports/__init__.py:127-231 | every column read is present iff each group of columns is |
| Reports.WritePreamble | reports/__init__.py:113-136 | writes title, introduction, definition figure, plot heading, plot and statistics heading, or stops at the plot's first absent column |
| Reports.WriteStatistics | reports/__init__.py:146-170 | appends the five statistics bullets in source order |
| Reports.WriteHistogram | reports/__init__.py:172-184 | appends an empty paragraph, the histogram heading and the histogram of the flagged hours |
| Reports.WriteAverage | reports/__init__.py:186-193 | appends the fault-average bullet only when the first conditional mean is not NaN, then an empty paragraph |
| Reports.WriteDescribeBlocks | reports/__init__.py:195-211 | appends a heading then a describe bullet per block, and returns the first absent describe column, if any |
| Reports.DescribeReadAt | reports/__init__.py:195-211 | with the earlier describe columns present, the next one either is the first absent column or extends the present prefix |
| Reports.WriteSuggestions | reports/__init__.py:213-225 | appends the suggestions heading and the percent-rule bullet, then the setpoint bullet |
| Reports.WriteSetpoint | reports/__init__.py:227-235 | when a setpoint is configured, appends a bullet with the reset sentence, and fails when the setpoint column is absent |
| Reports.WriteFooter | reports/__init__.py:237-239 | appends one paragraph whose only run is the generation stamp, in the Emphasis style |
| Reports.DescribeHeadings | reports/__init__.py:195-211 | the describe sections' headings are the blocks' headings, in order |
| Reports.DescribeBullets | reports/__init__.py:195-211 | the describe sections' bullet text is one description per block column, in order |
| Reports.DescribeLength | reports/__init__.py:195-211 | two sections per describe block |
| Reports.ReportSucceedsIff | reports/__init__.py:105-240 | a report succeeds iff every column it reads is present; a failure names a read column that is absent with every earlier one present |
| Reports.LayoutOutline | reports/__init__.py:115-213 | the headings are the title, "Dataset Plot", "Dataset Statistics", "Time-of-day Histogram Plots", the describe headings in order, then "Suggestions based on data analysis" |
| Reports.LayoutPictures | reports/__init__.py:121-184 | exactly three pictures: the definition figure, the time series and the histogram, which holds one hour of day per flagged row |
| Reports.LayoutBullets | reports/__init__.py:146-233 | the bullet text in order: five statistics, the fault averages when defined, one description per block, the percent suggestion, and the setpoint suggestion when configured |
| Reports.LayoutAverages | reports/__init__.py:186-191 | the fault averages appear once and only when the first conditional mean is defined |
| Reports.LayoutSuggestions | reports/__init__.py:213-235 | the suggestions are the percent rule's sentence followed by the setpoint's, when configured |
| Reports.LayoutFooter | reports/__init__.py:237-239 | the last section is the footer, and the generation time appears nowhere else |
| Reports.LayoutLength | reports/__init__.py:113-239 | 18 fixed sections, two per describe block, and one each for the guarded average and setpoint bullets |
| Reports.AverageBulletIff | reports/__init__.py:186-191 | the average bullet is written iff a mean column is configured and some row is flagged |
| Reports.ComparedPercent | reports/__init__.py:71 | the percentage the rules compare is 100 × flagged rows / rows rounded to hundredths, NaN on an empty frame |
| Reports.ReportOutline | reports/__init__.py:115-213 | a report over a frame with every column succeeds, and its headings are those of LayoutOutline |
| Reports.ReportSuggestions | reports/__init__.py:213-235 | a report over a frame with every column succeeds, and its suggestions are chosen from the rounded flag share and the setpoint column |
| Reports.ReportAverages | reports/__init__.py:186-191 | a report over a frame with every column succeeds, and carries the summary's fault averages iff a mean column is configured and some row is flagged |
| Conditions.FlaggedShare | reports/__init__.py:71 | the unrounded share of flagged rows, in [0, 100] |
| Conditions.ComparedShare | reports/__init__.py:71 | the compared percentage is the rounded flagged share, NaN for an empty frame |
| Conditions.ThreeMissing | reports/__init__.py:195-211 | reading three columns in order fails at the first absent one |
| Conditions.ThreeHeadings | reports/__init__.py:195-211 | three describe blocks give their three headings in order |
| Conditions.FaultOneMissing | reports/__init__.py:43-231 | fault condition 1 reads duct static, fan speed and setpoint so that the first absent of them, in that order, is the error |
| Conditions.FaultOneColumns | reports/__init__.py:43-231 | a fault condition 1 report succeeds iff the three columns are present, and otherwise fails with the first absent one |
| Conditions.FaultOnePresent | reports/__init__.py:43-231 | with its three columns present, a fault condition 1 frame has everything the report reads |
| Conditions.FaultOneOutline | reports/__init__.py:115-213 | the eight headings of a fault condition 1 report, in order |
| Conditions.FaultOneAverages | reports/__init__.py:75-191 | the fault average is the rounded mean duct static over flagged rows, present iff some row is flagged |
| Conditions.FaultOneSuggestions | reports/__init__.py:213-235 | the poor-fan sentence iff the frame is non-empty and the rounded flagged share exceeds 5; "no reset" iff the setpoint has two or more readings, all equal |
| Conditions.FaultOneMargin | reports/__init__.py:71-217 | on a non-empty frame the poor-fan sentence is chosen iff the exact flagged share exceeds 5.005 %, and the good-pressure sentence iff it is at most 5.005 % (the tie 5.005 rounds to 5.00) |
| Conditions.FaultTwoMissing | reports/__init__.py:272-462 | fault condition 2 reads mixed, return and outside air so that the first absent of them, in that order, is the error |
| Conditions.FaultTwoColumns | reports/__init__.py:272-462 | a fault condition 2 report succeeds iff the three columns are present, and otherwise fails with the first absent one |
| Conditions.FaultTwoPresent | reports/__init__.py:272-462 | with its three columns present, a fault condition 2 frame has everything the report reads |
| Conditions.FaultTwoOutline | reports/__init__.py:362-464 | the eight headings of a fault condition 2 report, in order |
| Conditions.FaultTwoAverages | reports/__init__.py:309-441 | the fault averages are the rounded mixed, outside and return means over flagged rows, in that order, present iff some row is flagged |
| Conditions.FaultTwoSuggestions | reports/__init__.py:464-476 | "out of calibration" iff the frame is non-empty and the rounded flagged share is below 5 |
| Conditions.FaultTwoMargin | reports/__init__.py:304-469 | on a non-empty frame "out of calibration" is chosen iff the exact flagged share is below 4.995 %, and "within calibration" iff it is at least 4.995 % (the tie 4.995 rounds to 5.00) |

## Left out

- Rendering of the time-series plots (`create_fan_plot`, `create_plot`) and of the histogram. A figure is a value naming what it shows. Only the columns the plots read, and their order, are modelled.
- matplotlib's default histogram binning. The model keeps the sample of hours and counts it into 24 hour buckets.
- The python-docx internals, `BytesIO` and `savefig`. The definition figure's file path, the picture width of 6 inches and the text styles beyond "List Bullet" and "Emphasis" are also left out.
- The `print` of the report path, and the `path` argument, which is used only there.
- `time.ctime()`. It is the parameter `at` of `Report` and `CreateReport`.
- The text of `str(column.describe())`, and number formatting inside f-strings. A bullet holds the typed value: the raw column for a description, or the statistic.
- Floating-point arithmetic. Sums, means and divisions are exact reals, and `round` is applied to exact decimals, so binary floating-point artefacts are not modelled.
- In-place writes to the DataFrame: the `astype(int)` cast of the flag column and the new `hour_of_the_day_fc*` column. Both are modelled as values.
- Lookup of the flag column by name. It is the frame's own aligned 0/1 field, so a missing or non-0/1 flag column is not modelled.
- NaN readings inside sensor columns. Sensor readings are numbers, and only statistics become NaN.
- Timestamps are whole seconds on a midnight-aligned scale. Time zones and sub-second resolution are not modelled.
- The constructor thresholds (`vfd_speed_percent_err_thres`, `mix_degf_err_thres` and the others) and the `FaultConditionOne` import. The reports never use them.
- The unused keyword arguments of `create_report` and `create_hist_plot`: `duct_static_col`, `mat_col`, `flag_true_duct_static` and `flag_true_mat`.
- The square root inside `std()`: `setpoint.std() == 0` is modelled as a zero sample variance, which is the same test on exact reals.
