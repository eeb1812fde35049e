/** The formatting passes of app/services/formatter.py, each as a function from
    the paragraph sequence before the pass to the sequence after it. The methods
    of `Formatter.Document` are proved to compute exactly these. */
module Passes {
  import opened Strings
  import opened Patterns
  import opened DocModel

  // ---------------------------------------------------------------------
  // formatter.py:62-71, spacing and font reset

  function ClearSpacing(p: Paragraph): Paragraph {
    p.(spaceBefore := Some(0), spaceAfter := Some(0))
  }

  function SpacingReset(ps: seq<Paragraph>): seq<Paragraph> {
    seq(|ps|, i requires 0 <= i < |ps| => ClearSpacing(ps[i]))
  }

  function BaseFontRun(r: Run): Run {
    r.(fontName := Some(BaseFontName), size := Some(BaseFontSize))
  }

  function WithBaseFont(rs: seq<Run>): seq<Run> {
    seq(|rs|, i requires 0 <= i < |rs| => BaseFontRun(rs[i]))
  }

  function FontReset(ps: seq<Paragraph>): seq<Paragraph> {
    seq(|ps|, i requires 0 <= i < |ps| => ps[i].(runs := WithBaseFont(ps[i].runs)))
  }

  // ---------------------------------------------------------------------
  // _format_lists, formatter.py:153-179

  /** `re.sub(r'^(\d+' + closer + r')\s+', r'\1 ', t)`. */
  function CollapseAfterNumber(t: string, closer: char): string {
    if DigitsThenSpace(t, closer) then
      var n := LeadingDigits(t);
      t[..n + 1] + " " + TrimStart(t[n + 1..])
    else t
  }

  /** What `_format_lists` makes of the first run's text. */
  function CleanListRun(t: string): string {
    CollapseAfterNumber(CollapseAfterNumber(ReplaceTabs(t), '.'), ')')
  }

  predicate IsListParagraph(p: Paragraph) {
    IsListItem(Strip(Text(p)))
  }

  /** A list item with its indents removed, justified, and its first run
      cleaned. */
  function ListFormatted(p: Paragraph): Paragraph {
    var q := p.(firstLineIndent := Some(0), leftIndent := Some(0), rightIndent := Some(0), alignment := Justify);
    if |q.runs| > 0 then q.(runs := [q.runs[0].(text := CleanListRun(q.runs[0].text))] + q.runs[1..]) else q
  }

  function ListStep(p: Paragraph): Paragraph {
    if IsListParagraph(p) then ListFormatted(p) else p
  }

  function ListsPass(ps: seq<Paragraph>): seq<Paragraph> {
    seq(|ps|, i requires 0 <= i < |ps| => ListStep(ps[i]))
  }

  // ---------------------------------------------------------------------
  // _format_headings, formatter.py:182-202

  function EmphasizeRun(r: Run, size: int): Run {
    r.(bold := Some(true), size := Some(size))
  }

  function Emphasize(rs: seq<Run>, size: int): seq<Run> {
    seq(|rs|, i requires 0 <= i < |rs| => EmphasizeRun(rs[i], size))
  }

  /** The trimmed, upper-cased text is one of the seven section names. */
  predicate IsSectionHeading(p: Paragraph) {
    Upper(Strip(Text(p))) in SectionNames
  }

  function HeadingStep(p: Paragraph): Paragraph {
    if IsSectionHeading(p) then
      p.(runs := Emphasize(p.runs, SectionHeadingSize), alignment := Center, firstLineIndent := Some(0))
    else if StartsSubsection(Text(p)) then
      p.(runs := Emphasize(p.runs, SubsectionHeadingSize), firstLineIndent := Some(0))
    else p
  }

  function HeadingsPass(ps: seq<Paragraph>): seq<Paragraph> {
    seq(|ps|, i requires 0 <= i < |ps| => HeadingStep(ps[i]))
  }

  // ---------------------------------------------------------------------
  // _format_main_text, formatter.py:205-222

  /** `is_special` of `_format_main_text`. */
  predicate KeepsAlignment(p: Paragraph) {
    var t := Strip(Text(p));
    p.alignment == Center || StartsTableCaption(t) || StartsFigureCaption(t) ||
    Upper(t) in SectionNames || StartsSubsection(t)
  }

  function MainTextStep(p: Paragraph): Paragraph {
    if KeepsAlignment(p) then p else p.(alignment := Justify)
  }

  function MainTextPass(ps: seq<Paragraph>): seq<Paragraph> {
    seq(|ps|, i requires 0 <= i < |ps| => MainTextStep(ps[i]))
  }

  // ---------------------------------------------------------------------
  // _format_paragraphs, formatter.py:225-245

  /** The test for a red-line (first-line) indent. */
  predicate GetsFirstLineIndent(p: Paragraph) {
    var t := Strip(Text(p));
    var special := Upper(t) in SectionNames || StartsSubsection(t) || p.alignment == Center;
    !IsListItem(t) && !special && t != ""
  }

  function ParagraphStep(p: Paragraph): Paragraph {
    p.(lineSpacing := Some(BaseLineSpacing),
       firstLineIndent := Some(if GetsFirstLineIndent(p) then BaseIndent else 0))
  }

  function ParagraphsPass(ps: seq<Paragraph>): seq<Paragraph> {
    seq(|ps|, i requires 0 <= i < |ps| => ParagraphStep(ps[i]))
  }

  // ---------------------------------------------------------------------
  // _format_tables_and_figures, formatter.py:248-288

  function TableCaptionText(i: nat): string {
    "Таблица " + DecimalString(i) + " " + [EnDash] + " "
  }

  function FigureCaptionText(k: nat): string {
    "Рисунок " + DecimalString(k)
  }

  /** The caption appended for the i-th table (1-based). */
  function TableCaption(i: nat): Paragraph {
    NewParagraph.(alignment := Center,
                  runs := [Run(TableCaptionText(i), Some(BaseFontName), Some(CaptionFontSize), None)])
  }

  /** The caption inserted after the k-th image paragraph (1-based). */
  function FigureCaption(k: nat): Paragraph {
    NewParagraph.(alignment := Center, spaceAfter := Some(12),
                  runs := [Run(FigureCaptionText(k), Some(BaseFontName), Some(CaptionFontSize), Some(true))])
  }

  function TableCaptions(n: nat): seq<Paragraph> {
    seq(n, i requires 0 <= i < n => TableCaption(i + 1))
  }

  function ImageCount(ps: seq<Paragraph>): nat {
    if ps == [] then 0 else (if ps[0].hasImage then 1 else 0) + ImageCount(ps[1..])
  }

  /** Every image paragraph followed by its caption, numbering from k + 1. */
  function CaptionFigures(ps: seq<Paragraph>, k: nat): seq<Paragraph> {
    if ps == [] then []
    else if ps[0].hasImage then [ps[0], FigureCaption(k + 1)] + CaptionFigures(ps[1..], k + 1)
    else [ps[0]] + CaptionFigures(ps[1..], k)
  }

  function CaptionsPass(ps: seq<Paragraph>, tables: nat): seq<Paragraph> {
    CaptionFigures(ps + TableCaptions(tables), 0)
  }

  // ---------------------------------------------------------------------
  // _format_bibliography, formatter.py:291-314

  predicate IsBibliographyMarker(p: Paragraph) {
    HasBibliographyMarker(Upper(Strip(Text(p))))
  }

  /** The flag `bibliography_started` after the loop has seen ps: set by the
      first marker and never cleared. */
  predicate BibliographyStarted(ps: seq<Paragraph>) {
    ps != [] && (BibliographyStarted(ps[..|ps| - 1]) || IsBibliographyMarker(ps[|ps| - 1]))
  }

  /** A paragraph cleared and refilled as a bibliography entry; clearing also
      removes any drawing it held. */
  function BibliographyEntry(p: Paragraph): Paragraph {
    p.(runs := [BaseRun(Normalize(Text(p)))],
       firstLineIndent := Some(-BaseIndent), leftIndent := Some(BaseIndent),
       alignment := Justify, hasImage := false)
  }

  /** Scanning one paragraph further. */
  lemma {:induction false} BibliographyStartedStep(ps: seq<Paragraph>, i: nat)
    requires i < |ps|
    ensures BibliographyStarted(ps[..i + 1]) == (BibliographyStarted(ps[..i]) || IsBibliographyMarker(ps[i]))
  {
    assert ps[..i + 1][..i] == ps[..i];
  }

  function BibliographyStep(p: Paragraph, started: bool): Paragraph {
    if IsBibliographyMarker(p) then p
    else if started && Strip(Text(p)) != "" then BibliographyEntry(p)
    else p
  }

  function BibliographyPass(ps: seq<Paragraph>): seq<Paragraph> {
    seq(|ps|, i requires 0 <= i < |ps| => BibliographyStep(ps[i], BibliographyStarted(ps[..i])))
  }

  // ---------------------------------------------------------------------
  // _generate_toc, formatter.py:317-352

  predicate HasContents(p: Paragraph) {
    HasContentsMarker(Upper(Text(p)))
  }

  predicate AnyContents(ps: seq<Paragraph>) {
    exists j :: 0 <= j < |ps| && HasContents(ps[j])
  }

  const ContentsTitle: Paragraph :=
    NewParagraph.(alignment := Center, runs := [Run("СОДЕРЖАНИЕ", None, Some(SectionHeadingSize), Some(true))])

  function TocEntry(heading: string): Paragraph {
    NewParagraph.(leftIndent := Some(0), firstLineIndent := Some(0),
                  runs := [BaseRun(heading + " "), BaseRun("1")])
  }

  /** The stripped texts of the paragraphs the contents lists, in order. */
  function TocHeadings(ps: seq<Paragraph>): seq<string> {
    if ps == [] then []
    else
      var last := Strip(Text(ps[|ps| - 1]));
      TocHeadings(ps[..|ps| - 1]) + (if IsTocHeading(last) then [last] else [])
  }

  function TocEntries(hs: seq<string>): seq<Paragraph> {
    seq(|hs|, i requires 0 <= i < |hs| => TocEntry(hs[i]))
  }

  /** The document with its contents title (if it had none) and the blank
      paragraph `_generate_toc` appends before listing headings. */
  function TocBody(ps: seq<Paragraph>): seq<Paragraph> {
    (if AnyContents(ps) then ps else [ContentsTitle] + ps) + [NewParagraph]
  }

  /** `None` where `doc.paragraphs[0]` raises on a document with no paragraphs. */
  function TocPass(ps: seq<Paragraph>): Option<seq<Paragraph>> {
    if !AnyContents(ps) && ps == [] then None
    else
      var body := TocBody(ps);
      Some(body + TocEntries(TocHeadings(body)))
  }

  // ---------------------------------------------------------------------
  // format_document, formatter.py:62-99

  /** The passes in the order of formatter.py:62-99. */
  function AllPasses(ps: seq<Paragraph>, tables: nat): Option<seq<Paragraph>> {
    var reset := FontReset(SpacingReset(ps));
    var styled := ParagraphsPass(MainTextPass(HeadingsPass(ListsPass(reset))));
    TocPass(BibliographyPass(CaptionsPass(styled, tables)))
  }
}
