/** The part of a Word document the formatter reads and writes: body paragraphs
    made of runs, each paragraph with its alignment, indents, spacing and a flag
    saying whether it holds a drawing, plus the number of tables in the body.

    Units are integers: font sizes and paragraph spacing in points, indents in
    hundredths of a centimetre, line spacing in hundredths of a line. A `None`
    field is one the document leaves to its style (python-docx reads it back as
    `None`). */
module DocModel {
  import opened Strings

  datatype Option<T> = None | Some(value: T)

  datatype Alignment = Unset | Left | Center | Right | Justify

  datatype Run = Run(text: string, fontName: Option<string>, size: Option<int>, bold: Option<bool>)

  datatype Paragraph = Paragraph(
    runs: seq<Run>,
    alignment: Alignment,
    firstLineIndent: Option<int>,
    leftIndent: Option<int>,
    rightIndent: Option<int>,
    spaceBefore: Option<int>,
    spaceAfter: Option<int>,
    lineSpacing: Option<int>,
    hasImage: bool)

  /** The base font and the paragraph settings of app/config/settings.py:30-37
      that the passes use. */
  const BaseFontName: string := "Times New Roman"
  const BaseFontSize: int := 14
  /** `GOST_LINE_SPACING = 1.5`, in hundredths of a line. */
  const BaseLineSpacing: int := 150
  /** `GOST_INDENT_CM = 1.25`, in hundredths of a centimetre. */
  const BaseIndent: int := 125
  /** The point size of the caption runs `_format_tables_and_figures` adds. */
  const CaptionFontSize: int := 12
  const SectionHeadingSize: int := 16
  const SubsectionHeadingSize: int := 14

  /** The concatenated text of a run sequence. */
  function RunsText(rs: seq<Run>): string {
    if rs == [] then "" else rs[0].text + RunsText(rs[1..])
  }

  /** `paragraph.text`. */
  function Text(p: Paragraph): string {
    RunsText(p.runs)
  }

  /** A paragraph as python-docx creates it: no runs and nothing set. */
  const NewParagraph: Paragraph :=
    Paragraph([], Unset, None, None, None, None, None, None, false)

  /** A run `add_run(text)` creates, with the base font the passes give it. */
  function BaseRun(text: string): Run {
    Run(text, Some(BaseFontName), Some(BaseFontSize), None)
  }

  /** A single run's paragraph text is that run's text. */
  lemma {:induction false} RunsTextSingle(r: Run)
    ensures RunsText([r]) == r.text
  {
    assert [r][1..] == [];
  }

  lemma {:induction false} RunsTextConcat(a: seq<Run>, b: seq<Run>)
    ensures RunsText(a + b) == RunsText(a) + RunsText(b)
  {
    if a == [] {
      assert a + b == b;
    } else {
      assert (a + b)[1..] == a[1..] + b;
      RunsTextConcat(a[1..], b);
    }
  }

  /** Changing run formatting leaves the text alone. */
  lemma {:induction false} RunsTextSameTexts(a: seq<Run>, b: seq<Run>)
    requires |a| == |b| && forall i :: 0 <= i < |a| ==> a[i].text == b[i].text
    ensures RunsText(a) == RunsText(b)
  {
    if a != [] {
      RunsTextSameTexts(a[1..], b[1..]);
    }
  }
}
