/**
 * The slice of a python-docx `Document` the reports use: an ordered list of
 * headings, paragraphs (each a paragraph style and a list of runs) and
 * pictures, grown by appending and by restyling the paragraph last added.
 * Run text is kept as a typed `Line`; how numbers are printed is not modelled.
 */
module Docx {
  import opened Wrappers
  import opened Narrative

  datatype FaultCode = FaultOne | FaultTwo

  /** The content of one run of text. */
  datatype Line =
    | Intro(code: FaultCode)                                   // the description of the fault condition
    | TotalDays(days: real)
    | TotalHours(hours: real)
    | FlaggedHours(hours: real)
    | TruePercent(percent: Option<real>)
    | FalsePercent(percent: Option<real>)
    | FaultAverages(code: FaultCode, means: seq<Option<real>>) // sensor means while in fault
    | Description(readings: seq<real>)                         // `str(column.describe())`
    | Suggestion(message: Message)
    | Generated(at: int)                                       // "Report generated: <time>"

  /** A picture: the static definition figure, or a figure rendered from the frame. */
  datatype Image =
    | Definition(code: FaultCode)
    | TimeSeriesPlot(code: FaultCode)
    | HourHistogramPlot(hours: seq<int>)   // the sample handed to `ax.hist`

  datatype ParagraphStyle = Normal | ListBullet
  datatype RunStyle = Plain | Emphasis
  datatype Run = Run(line: Line, style: RunStyle)

  datatype Section =
    | Heading(text: string, level: nat)
    | Paragraph(style: ParagraphStyle, runs: seq<Run>)
    | Picture(image: Image)

  /** A one-run paragraph in the "List Bullet" style. */
  function Bullet(line: Line): Section
  {
    Paragraph(ListBullet, [Run(line, Plain)])
  }

  class Document {
    var sections: seq<Section>

    constructor ()
      ensures sections == []
    {
      sections := [];
    }

    /** `document.add_heading(text, level)`. */
    method AddHeading(text: string, level: nat)
      modifies this
      ensures sections == old(sections) + [Heading(text, level)]
    {
      sections := sections + [Heading(text, level)];
    }

    /** `document.add_paragraph(text)`, or an empty paragraph; returns the new paragraph's position. */
    method AddParagraph(text: Option<Line>) returns (p: nat)
      modifies this
      ensures p == |old(sections)|
      ensures sections == old(sections) + [Paragraph(Normal, if text.Some? then [Run(text.value, Plain)] else [])]
    {
      p := |sections|;
      sections := sections + [Paragraph(Normal, if text.Some? then [Run(text.value, Plain)] else [])];
    }

    /** `document.add_picture(image)`. */
    method AddPicture(image: Image)
      modifies this
      ensures sections == old(sections) + [Picture(image)]
    {
      sections := sections + [Picture(image)];
    }

    /** `paragraph.style = style`. */
    method SetStyle(p: nat, style: ParagraphStyle)
      requires p < |sections| && sections[p].Paragraph?
      modifies this
      ensures sections == old(sections)[p := old(sections)[p].(style := style)]
    {
      sections := sections[p := sections[p].(style := style)];
    }

    /** `paragraph.add_run(text)`; returns the new run's position. */
    method AddRun(p: nat, line: Line) returns (r: nat)
      requires p < |sections| && sections[p].Paragraph?
      modifies this
      ensures r == |old(sections)[p].runs|
      ensures sections == old(sections)[p := old(sections)[p].(runs := old(sections)[p].runs + [Run(line, Plain)])]
    {
      r := |sections[p].runs|;
      sections := sections[p := sections[p].(runs := sections[p].runs + [Run(line, Plain)])];
    }

    /** `run.style = style`. */
    method SetRunStyle(p: nat, r: nat, style: RunStyle)
      requires p < |sections| && sections[p].Paragraph? && r < |sections[p].runs|
      modifies this
      ensures sections == old(sections)[p := old(sections)[p].(runs := old(sections)[p].runs[r := old(sections)[p].runs[r].(style := style)])]
    {
      sections := sections[p := sections[p].(runs := sections[p].runs[r := sections[p].runs[r].(style := style)])];
    }

    /** The three-step bullet idiom: add a paragraph, style it "List Bullet", add one run. */
    method AddBullet(line: Line)
      modifies this
      ensures sections == old(sections) + [Bullet(line)]
    {
      var p := AddParagraph(None);
      SetStyle(p, ListBullet);
      var _ := AddRun(p, line);
      assert [] + [Run(line, Plain)] == [Run(line, Plain)];
    }
  }

  // ------------------------------------------------------ views of a document

  /** The concatenation of what `pick` finds in each section, in document order. */
  function Collect<T>(secs: seq<Section>, pick: Section -> seq<T>): seq<T>
  {
    if secs == [] then [] else Collect(secs[..|secs| - 1], pick) + pick(secs[|secs| - 1])
  }

  lemma {:induction false} CollectAppend<T>(a: seq<Section>, b: seq<Section>, pick: Section -> seq<T>)
    ensures Collect(a + b, pick) == Collect(a, pick) + Collect(b, pick)
  {
    if b == [] {
      assert a + b == a;
    } else {
      assert (a + b)[..|a + b| - 1] == a + b[..|b| - 1];
      CollectAppend(a, b[..|b| - 1], pick);
    }
  }

  lemma Collect1<T>(a: Section, pick: Section -> seq<T>)
    ensures Collect([a], pick) == pick(a)
  {
    assert [a][..0] == [];
  }

  lemma Collect2<T>(a: Section, b: Section, pick: Section -> seq<T>)
    ensures Collect([a, b], pick) == pick(a) + pick(b)
  {
    assert [a, b][..1] == [a];
    Collect1(a, pick);
  }

  lemma Collect3<T>(a: Section, b: Section, c: Section, pick: Section -> seq<T>)
    ensures Collect([a, b, c], pick) == pick(a) + pick(b) + pick(c)
  {
    assert [a, b, c][..2] == [a, b];
    Collect2(a, b, pick);
  }

  function HeadingText(s: Section): seq<string>
  {
    if s.Heading? then [s.text] else []
  }

  function RunLines(runs: seq<Run>): seq<Line>
  {
    if runs == [] then [] else RunLines(runs[..|runs| - 1]) + [runs[|runs| - 1].line]
  }

  /** The text of a bulleted paragraph. */
  function BulletLines(s: Section): seq<Line>
  {
    if s.Paragraph? && s.style == ListBullet then RunLines(s.runs) else []
  }

  function PictureOf(s: Section): seq<Image>
  {
    if s.Picture? then [s.image] else []
  }

  /** The suggestions a section carries. */
  function SuggestionsOf(s: Section): seq<Message>
  {
    if s.Paragraph? then Suggestions(s.runs) else []
  }

  function Suggestions(runs: seq<Run>): seq<Message>
  {
    if runs == [] then []
    else Suggestions(runs[..|runs| - 1])
         + (if runs[|runs| - 1].line.Suggestion? then [runs[|runs| - 1].line.message] else [])
  }

  /** The fault-average commentary a section carries. */
  function AveragesOf(s: Section): seq<seq<Option<real>>>
  {
    if s.Paragraph? then Averages(s.runs) else []
  }

  function Averages(runs: seq<Run>): seq<seq<Option<real>>>
  {
    if runs == [] then []
    else Averages(runs[..|runs| - 1])
         + (if runs[|runs| - 1].line.FaultAverages? then [runs[|runs| - 1].line.means] else [])
  }

  /** What each view sees in a paragraph of one run. */
  lemma OneRunViews(style: ParagraphStyle, run: Run)
    ensures BulletLines(Paragraph(style, [run])) == if style == ListBullet then [run.line] else []
    ensures SuggestionsOf(Paragraph(style, [run])) == if run.line.Suggestion? then [run.line.message] else []
    ensures AveragesOf(Paragraph(style, [run])) == if run.line.FaultAverages? then [run.line.means] else []
    ensures StampsOf(Paragraph(style, [run])) == if run.line.Generated? then [run.line.at] else []
  {
    var runs := [run];
    assert runs[..|runs| - 1] == [];
    assert RunLines(runs) == [run.line];
    assert Suggestions(runs) == if run.line.Suggestion? then [run.line.message] else [];
    assert Averages(runs) == if run.line.FaultAverages? then [run.line.means] else [];
    assert Stamps(runs) == if run.line.Generated? then [run.line.at] else [];
  }

  lemma BulletViews(line: Line)
    ensures BulletLines(Bullet(line)) == [line]
    ensures SuggestionsOf(Bullet(line)) == if line.Suggestion? then [line.message] else []
    ensures AveragesOf(Bullet(line)) == if line.FaultAverages? then [line.means] else []
    ensures StampsOf(Bullet(line)) == if line.Generated? then [line.at] else []
  {
    OneRunViews(ListBullet, Run(line, Plain));
  }

  /** The generation stamps a section carries. */
  function StampsOf(s: Section): seq<int>
  {
    if s.Paragraph? then Stamps(s.runs) else []
  }

  function Stamps(runs: seq<Run>): seq<int>
  {
    if runs == [] then []
    else Stamps(runs[..|runs| - 1])
         + (if runs[|runs| - 1].line.Generated? then [runs[|runs| - 1].line.at] else [])
  }
}
