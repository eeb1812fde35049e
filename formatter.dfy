/** `format_document` of app/services/formatter.py: a document object whose
    paragraph sequence the passes rewrite in place, one method and one loop per
    pass, each proved to leave exactly what the matching function of `Passes`
    describes. */
module Formatter {
  import opened Strings
  import opened Patterns
  import opened DocModel
  import opened Passes
  import opened CaptionProofs
  import OutputPaths
  import TocProofs
  import PipelineProofs

  /** What `paragraph_format.space_before = Pt(0); ...space_after = Pt(0)`
      leaves (formatter.py:63-64). */
  method ClearParagraphSpacing(para: Paragraph) returns (p: Paragraph)
    ensures p == ClearSpacing(para)
  {
    p := para.(spaceBefore := Some(0));
    p := p.(spaceAfter := Some(0));
  }

  /** What `for run in paragraph.runs: run.font.name = ...; run.font.size = ...`
      leaves (formatter.py:69-71). */
  method SetBaseFont(runs: seq<Run>) returns (out: seq<Run>)
    ensures |out| == |runs|
    ensures forall j :: 0 <= j < |runs| ==>
      out[j] == runs[j].(fontName := Some(BaseFontName), size := Some(BaseFontSize))
    ensures out == WithBaseFont(runs)
  {
    out := runs;
    var j := 0;
    while j < |out|
      invariant 0 <= j <= |out| == |runs|
      invariant forall m :: 0 <= m < j ==> out[m] == runs[m].(fontName := Some(BaseFontName), size := Some(BaseFontSize))
      invariant forall m :: j <= m < |out| ==> out[m] == runs[m]
    {
      out := out[j := out[j].(fontName := Some(BaseFontName), size := Some(BaseFontSize))];
      j := j + 1;
    }
  }

  /** What `for run in paragraph.runs: run.font.bold = True; run.font.size = Pt(size)`
      leaves (formatter.py:191-193, 199-201). */
  method EmphasizeRuns(runs: seq<Run>, size: int) returns (out: seq<Run>)
    ensures |out| == |runs|
    ensures forall j :: 0 <= j < |runs| ==>
      out[j] == runs[j].(bold := Some(true), size := Some(size))
    ensures out == Emphasize(runs, size)
  {
    out := runs;
    var j := 0;
    while j < |out|
      invariant 0 <= j <= |out| == |runs|
      invariant forall m :: 0 <= m < j ==> out[m] == runs[m].(bold := Some(true), size := Some(size))
      invariant forall m :: j <= m < |out| ==> out[m] == runs[m]
    {
      out := out[j := out[j].(bold := Some(true), size := Some(size))];
      j := j + 1;
    }
  }

  /** The body of the loop of `_format_lists` for one paragraph
      (formatter.py:157-179). */
  method FormatListParagraph(para: Paragraph) returns (p: Paragraph)
    ensures p == ListStep(para)
  {
    p := para;
    var text := Strip(Text(p));
    if IsListItem(text) {
      p := p.(firstLineIndent := Some(0), leftIndent := Some(0), rightIndent := Some(0));
      p := p.(alignment := Justify);
      if |p.runs| > 0 {
        var first := p.runs[0];
        var firstText := first.text;
        if '\t' in firstText {
          first := first.(text := ReplaceTabs(firstText));
        }
        ReplaceTabsSameShape(firstText);
        var cleaned := CollapseAfterNumber(first.text, '.');
        cleaned := CollapseAfterNumber(cleaned, ')');
        first := first.(text := cleaned);
        p := p.(runs := [first] + p.runs[1..]);
      }
    }
  }

  /** The body of the loop of `_format_headings` for one paragraph
      (formatter.py:186-202). */
  method FormatHeadingParagraph(para: Paragraph) returns (p: Paragraph)
    ensures p == HeadingStep(para)
  {
    p := para;
    if IsSectionHeading(p) {
      var runs := EmphasizeRuns(p.runs, SectionHeadingSize);
      p := p.(runs := runs, alignment := Center, firstLineIndent := Some(0));
    } else if StartsSubsection(Text(p)) {
      var runs := EmphasizeRuns(p.runs, SubsectionHeadingSize);
      p := p.(runs := runs, firstLineIndent := Some(0));
    }
  }

  /** The body of the loop of `_format_main_text` for one paragraph
      (formatter.py:208-222). */
  method FormatMainTextParagraph(para: Paragraph) returns (p: Paragraph)
    ensures p == MainTextStep(para)
  {
    p := para;
    var text := Strip(Text(p));
    var isSpecial := p.alignment == Center || StartsTableCaption(text) ||
      StartsFigureCaption(text) || Upper(text) in SectionNames || StartsSubsection(text);
    if !isSpecial {
      p := p.(alignment := Justify);
    }
  }

  /** The body of the loop of `_format_paragraphs` for one paragraph
      (formatter.py:228-245). */
  method FormatParagraphParagraph(para: Paragraph) returns (p: Paragraph)
    ensures p == ParagraphStep(para)
  {
    p := para.(lineSpacing := Some(BaseLineSpacing));
    var text := Strip(Text(p));
    var isList := IsListItem(text);
    var isSpecial := Upper(text) in SectionNames || StartsSubsection(text) || p.alignment == Center;
    if !isList && !isSpecial && text != "" {
      p := p.(firstLineIndent := Some(BaseIndent));
    } else {
      p := p.(firstLineIndent := Some(0));
    }
  }

  /** The body of the loop of `_format_bibliography` for one paragraph
      (formatter.py:297-314): the paragraph it leaves and the new value of
      `bibliography_started`. */
  method FormatBibliographyParagraph(para: Paragraph, started: bool) returns (p: Paragraph, nowStarted: bool)
    ensures p == BibliographyStep(para, started)
    ensures nowStarted == (started || IsBibliographyMarker(para))
  {
    p := para;
    var text := Upper(Strip(Text(p)));
    if Contains(text, "СПИСОК ИСПОЛЬЗОВАННЫХ ИСТОЧНИКОВ") || Contains(text, "БИБЛИОГРАФИЧЕСКИЙ СПИСОК") {
      return p, true;
    }
    nowStarted := started;
    if started && Strip(Text(p)) != "" {
      var entry := Normalize(Text(p));
      p := p.(runs := [], hasImage := false);
      p := p.(runs := [BaseRun(entry)]);
      p := p.(firstLineIndent := Some(-BaseIndent), leftIndent := Some(BaseIndent));
      p := p.(alignment := Justify);
    }
  }

  /** One turn of the loop of `_format_bibliography`: the paragraph at i
      rewritten and the flag updated, with everything before i done. */
  method FormatBibliographyAt(ghost ps: seq<Paragraph>, ghost out: seq<Paragraph>, paras: seq<Paragraph>, i: nat, started: bool)
    returns (next: seq<Paragraph>, nowStarted: bool)
    requires out == BibliographyPass(ps)
    requires i < |ps| == |paras| && paras == out[..i] + ps[i..]
    requires started == BibliographyStarted(ps[..i])
    ensures |next| == |ps| && next == out[..i + 1] + ps[i + 1..]
    ensures nowStarted == BibliographyStarted(ps[..i + 1])
  {
    BibliographyStartedStep(ps, i);
    assert paras[i] == ps[i];
    var p;
    p, nowStarted := FormatBibliographyParagraph(paras[i], started);
    UpdatePrefix(out, ps, paras, i, p);
    next := paras[i := p];
  }

  /** A pass done on every paragraph has given its whole image. */
  lemma {:induction false} PassDone(out: seq<Paragraph>, ps: seq<Paragraph>, paras: seq<Paragraph>)
    requires |ps| == |out| && paras == out[..|ps|] + ps[|ps|..]
    ensures paras == out
  {
    assert out[..|ps|] == out;
  }

  /** One more paragraph of a pass done: the paragraph at i replaced by its
      image under the pass leaves the next prefix done. */
  lemma {:induction false} UpdatePrefix(out: seq<Paragraph>, ps: seq<Paragraph>, paras: seq<Paragraph>, i: nat, p: Paragraph)
    requires i < |ps| == |out| && paras == out[..i] + ps[i..] && p == out[i]
    ensures paras[i := p] == out[..i + 1] + ps[i + 1..]
  {
  }

  /** One turn of the caption loop of `_format_tables_and_figures`: the
      caption of the image of rank r goes right after it, in front of the
      part already captioned. */
  method CaptionImageAt(ghost base: seq<Paragraph>, figs: seq<nat>, xs: seq<Paragraph>, figureIndex: nat)
    returns (next: seq<Paragraph>)
    requires ExactImageIndices(base, figs) && 1 <= figureIndex <= |figs|
    requires xs == Captioned(base, figs, |figs| - figureIndex + 1)
    ensures next == Captioned(base, figs, |figs| - figureIndex)
  {
    var paraIndex := figs[|figs| - figureIndex];
    var figureNumber := |figs| - figureIndex + 1;
    FigureStep(base, figs, figureNumber);
    var caption := FigureCaption(figureNumber);
    if paraIndex + 1 < |xs| {
      next := xs[..paraIndex + 1] + [caption] + xs[paraIndex + 1..];
    } else {
      assert xs[paraIndex + 1..] == [] && xs[..paraIndex + 1] == xs;
      next := xs + [caption];
    }
  }

  /** The heading list grows by the next paragraph's stripped text exactly
      when that text is a contents heading. */
  lemma {:induction false} TocHeadingsStep(ps: seq<Paragraph>, i: nat)
    requires i < |ps|
    ensures TocHeadings(ps[..i + 1]) ==
      TocHeadings(ps[..i]) + (if IsTocHeading(Strip(Text(ps[i]))) then [Strip(Text(ps[i]))] else [])
  {
    assert ps[..i + 1][..i] == ps[..i] && ps[..i + 1][i] == ps[i];
  }

  class Document {
    var paras: seq<Paragraph>
    var tables: nat

    constructor (paras: seq<Paragraph>, tables: nat)
      ensures this.paras == paras && this.tables == tables
    {
      this.paras := paras;
      this.tables := tables;
    }

    /** formatter.py:62-64 */
    method ResetSpacing()
      modifies this`paras
      ensures paras == SpacingReset(old(paras))
    {
      ghost var ps := paras;
      ghost var out := SpacingReset(ps);
      var i := 0;
      while i < |paras|
        invariant 0 <= i <= |paras| == |ps| == |out|
        invariant paras == out[..i] + ps[i..]
      {
        assert paras[i] == ps[i];
        var p := ClearParagraphSpacing(paras[i]);
        UpdatePrefix(out, ps, paras, i, p);
        paras := paras[i := p];
        i := i + 1;
      }
    }

    /** formatter.py:68-71 */
    method ApplyBaseFont()
      modifies this`paras
      ensures paras == FontReset(old(paras))
    {
      ghost var ps := paras;
      ghost var out := FontReset(ps);
      var i := 0;
      while i < |paras|
        invariant 0 <= i <= |paras| == |ps| == |out|
        invariant paras == out[..i] + ps[i..]
      {
        assert paras[i] == ps[i];
        var runs := SetBaseFont(paras[i].runs);
        var p := paras[i].(runs := runs);
        UpdatePrefix(out, ps, paras, i, p);
        paras := paras[i := p];
        i := i + 1;
      }
    }

    /** `_format_lists`, formatter.py:153-179 */
    method FormatLists()
      modifies this`paras
      ensures paras == ListsPass(old(paras))
    {
      ghost var ps := paras;
      ghost var out := ListsPass(ps);
      var i := 0;
      while i < |paras|
        invariant 0 <= i <= |paras| == |ps| == |out|
        invariant paras == out[..i] + ps[i..]
      {
        assert paras[i] == ps[i];
        var p := FormatListParagraph(paras[i]);
        UpdatePrefix(out, ps, paras, i, p);
        paras := paras[i := p];
        i := i + 1;
      }
    }

    /** `_format_headings`, formatter.py:182-202 */
    method FormatHeadings()
      modifies this`paras
      ensures paras == HeadingsPass(old(paras))
    {
      ghost var ps := paras;
      ghost var out := HeadingsPass(ps);
      var i := 0;
      while i < |paras|
        invariant 0 <= i <= |paras| == |ps| == |out|
        invariant paras == out[..i] + ps[i..]
      {
        assert paras[i] == ps[i];
        var p := FormatHeadingParagraph(paras[i]);
        UpdatePrefix(out, ps, paras, i, p);
        paras := paras[i := p];
        i := i + 1;
      }
    }

    /** `_format_main_text`, formatter.py:205-222 */
    method FormatMainText()
      modifies this`paras
      ensures paras == MainTextPass(old(paras))
    {
      ghost var ps := paras;
      ghost var out := MainTextPass(ps);
      var i := 0;
      while i < |paras|
        invariant 0 <= i <= |paras| == |ps| == |out|
        invariant paras == out[..i] + ps[i..]
      {
        assert paras[i] == ps[i];
        var p := FormatMainTextParagraph(paras[i]);
        UpdatePrefix(out, ps, paras, i, p);
        paras := paras[i := p];
        i := i + 1;
      }
    }

    /** `_format_paragraphs`, formatter.py:225-245 */
    method FormatParagraphs()
      modifies this`paras
      ensures paras == ParagraphsPass(old(paras))
    {
      ghost var ps := paras;
      ghost var out := ParagraphsPass(ps);
      var i := 0;
      while i < |paras|
        invariant 0 <= i <= |paras| == |ps| == |out|
        invariant paras == out[..i] + ps[i..]
      {
        assert paras[i] == ps[i];
        var p := FormatParagraphParagraph(paras[i]);
        UpdatePrefix(out, ps, paras, i, p);
        paras := paras[i := p];
        i := i + 1;
      }
    }

    /** The first loop of formatter.py:263-267: the indices of the paragraphs
        holding a drawing, in document order. */
    method FindImageParagraphs() returns (figs: seq<nat>)
      ensures forall m :: 0 <= m < |figs| ==> figs[m] < |paras| && paras[figs[m]].hasImage
      ensures forall m, n :: 0 <= m < n < |figs| ==> figs[m] < figs[n]
      ensures forall j :: 0 <= j < |paras| && paras[j].hasImage ==> j in figs
    {
      figs := [];
      var i := 0;
      while i < |paras|
        invariant 0 <= i <= |paras|
        invariant forall m :: 0 <= m < |figs| ==> figs[m] < i && paras[figs[m]].hasImage
        invariant forall m, n :: 0 <= m < n < |figs| ==> figs[m] < figs[n]
        invariant forall j :: 0 <= j < i && paras[j].hasImage ==> j in figs
      {
        if paras[i].hasImage {
          figs := figs + [i];
        }
        i := i + 1;
      }
    }

    /** The table loop of `_format_tables_and_figures`, formatter.py:251-256:
        one caption per table, numbered from 1, appended at the end. */
    method AppendTableCaptions()
      modifies this`paras
      ensures paras == old(paras) + TableCaptions(tables)
    {
      ghost var ps := paras;
      var i := 1;
      while i <= tables
        invariant 1 <= i <= tables + 1
        invariant paras == ps + TableCaptions(i - 1)
      {
        assert TableCaptions(i) == TableCaptions(i - 1) + [TableCaption(i)];
        paras := paras + [TableCaption(i)];
        i := i + 1;
      }
    }

    /** The caption loop of `_format_tables_and_figures`, formatter.py:269-288:
        working from the last image back to the first, a caption numbered by
        the image's rank goes right after it. */
    method CaptionImages()
      modifies this`paras
      ensures paras == CaptionFigures(old(paras), 0)
    {
      ghost var base := paras;
      var figs := FindImageParagraphs();
      assert ExactImageIndices(base, figs);
      var xs := paras;
      var figureIndex := 1;
      while figureIndex <= |figs|
        invariant 1 <= figureIndex <= |figs| + 1
        invariant xs == Captioned(base, figs, |figs| - figureIndex + 1)
      {
        xs := CaptionImageAt(base, figs, xs, figureIndex);
        figureIndex := figureIndex + 1;
      }
      FiguresDone(base, figs);
      paras := xs;
    }

    /** `_format_tables_and_figures`, formatter.py:248-288 */
    method FormatTablesAndFigures()
      modifies this`paras
      ensures paras == CaptionsPass(old(paras), tables)
    {
      AppendTableCaptions();
      CaptionImages();
    }

    /** `_format_bibliography`, formatter.py:291-314 */
    method FormatBibliography()
      modifies this`paras
      ensures paras == BibliographyPass(old(paras))
    {
      ghost var ps := paras;
      ghost var out := BibliographyPass(ps);
      var xs := paras;
      var started := false;
      var i := 0;
      while i < |xs|
        invariant 0 <= i <= |xs| == |ps| == |out|
        invariant xs == out[..i] + ps[i..]
        invariant started == BibliographyStarted(ps[..i])
      {
        xs, started := FormatBibliographyAt(ps, out, xs, i, started);
        i := i + 1;
      }
      PassDone(out, ps, xs);
      paras := xs;
    }

    /** The first loop of `_generate_toc`, formatter.py:320-324. */
    method FindContents() returns (found: bool)
      ensures found == AnyContents(paras)
    {
      found := false;
      var i := 0;
      while i < |paras|
        invariant 0 <= i <= |paras|
        invariant forall j :: 0 <= j < i ==> !HasContents(paras[j])
      {
        if HasContentsMarker(Upper(Text(paras[i]))) {
          found := true;
          break;
        }
        i := i + 1;
      }
    }

    /** The heading loop of `_generate_toc`, formatter.py:334-339. */
    method CollectHeadings() returns (headings: seq<string>)
      ensures headings == TocHeadings(paras)
    {
      headings := [];
      var i := 0;
      while i < |paras|
        invariant 0 <= i <= |paras|
        invariant headings == TocHeadings(paras[..i])
      {
        var text := Strip(Text(paras[i]));
        TocHeadingsStep(paras, i);
        if Upper(text) in TocSectionNames || StartsNumbered(text) {
          headings := headings + [text];
        }
        i := i + 1;
      }
      assert paras[..i] == paras;
    }

    /** The last loop of `_generate_toc`, formatter.py:342-352: one entry per
        heading, appended in order. */
    method AppendTocEntries(headings: seq<string>)
      modifies this`paras
      ensures paras == old(paras) + TocEntries(headings)
    {
      ghost var body := paras;
      ghost var entries := TocEntries(headings);
      var j := 0;
      while j < |headings|
        invariant 0 <= j <= |headings| == |entries|
        invariant paras == body + entries[..j]
      {
        assert entries[..j + 1] == entries[..j] + [TocEntry(headings[j])];
        paras := paras + [TocEntry(headings[j])];
        j := j + 1;
      }
      assert entries[..j] == entries;
    }

    /** `_generate_toc`, formatter.py:317-352; false where it raises because
        the document has no paragraph to insert the contents title before. */
    method GenerateToc() returns (ok: bool)
      modifies this`paras
      ensures ok == TocPass(old(paras)).Some?
      ensures ok ==> paras == TocPass(old(paras)).value
      ensures !ok ==> paras == old(paras)
    {
      ghost var ps := paras;
      var found := FindContents();
      if !found {
        if |paras| == 0 {
          return false;
        }
        paras := [ContentsTitle] + paras;
      }
      paras := paras + [NewParagraph];
      ghost var body := paras;
      assert body == TocBody(ps);
      var headings := CollectHeadings();
      AppendTocEntries(headings);
      assert paras == body + TocEntries(TocHeadings(body));
      assert TocPass(ps) == Some(paras);
      ok := true;
    }
  }

  /** `format_document`, formatter.py:20-115. The existence of the input file
      is a parameter and `doc` is the document loaded from it; loading, page
      margins, page numbers and saving are not modelled. Returns whether the
      document was formatted and, when it was, the path it is saved to; when
      it was not, the document is as it was (in this model the passes fail
      only on an empty one). */
  method FormatDocument(inputFile: string, outputFile: Option<string>, inputExists: bool, doc: Document)
    returns (ok: bool, savedTo: Option<string>)
    modifies doc
    ensures savedTo == if ok then Some(OutputPaths.OutputPath(inputFile, outputFile)) else None
    ensures doc.tables == old(doc.tables)
    ensures ok == (inputExists && AllPasses(old(doc.paras), old(doc.tables)).Some?)
    ensures ok ==> doc.paras == AllPasses(old(doc.paras), old(doc.tables)).value
    ensures !ok ==> doc.paras == old(doc.paras)
  {
    var outputPath := OutputPaths.OutputPath(inputFile, outputFile);
    if !inputExists {
      return false, None;
    }
    doc.ResetSpacing();
    doc.ApplyBaseFont();
    doc.FormatLists();
    doc.FormatHeadings();
    doc.FormatMainText();
    doc.FormatParagraphs();
    doc.FormatTablesAndFigures();
    doc.FormatBibliography();
    ghost var before := doc.paras;
    ok := doc.GenerateToc();
    if !ok {
      TocProofs.TocPassFails(before);
      PipelineProofs.AllPassesFails(old(doc.paras), old(doc.tables));
    }
    savedTo := if ok then Some(outputPath) else None;
  }
}
