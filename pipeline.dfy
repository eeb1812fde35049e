/** Properties of the whole of `format_document` (formatter.py:62-99): when it
    fails, and what the bibliography pass does to the table captions the
    caption pass appended before it. */
module PipelineProofs {
  import opened Strings
  import opened Patterns
  import opened DocModel
  import opened Passes
  import CaptionProofs
  import BibliographyProofs
  import TocProofs

  /** The passes fail only on a document with no paragraphs and no tables:
      the caption pass adds a paragraph per table, the bibliography pass keeps
      the number of paragraphs, and the contents pass then has nothing in
      front of which to put its title. */
  lemma {:induction false} AllPassesFails(ps: seq<Paragraph>, tables: nat)
    ensures AllPasses(ps, tables).None? <==> ps == [] && tables == 0
  {
    var styled := ParagraphsPass(MainTextPass(HeadingsPass(ListsPass(FontReset(SpacingReset(ps))))));
    assert |styled| == |ps|;
    CaptionProofs.CaptionsPassShape(styled, tables);
    var b := BibliographyPass(CaptionsPass(styled, tables));
    assert |b| == |ps| + tables + ImageCount(styled);
    TocProofs.TocPassFails(b);
  }

  /** Every character of a contained string occurs in the containing one. */
  lemma {:induction false} ContainsHasChar(s: string, sub: string, j: nat)
    requires Contains(s, sub) && j < |sub|
    ensures sub[j] in s
  {
    if StartsWith(s, sub) {
      assert s[j] == sub[j];
    } else {
      ContainsHasChar(s[1..], sub, j);
      assert s[1..] == s[1..] && sub[j] in s[1..];
    }
  }

  /** A table caption, stripped, is its text without the final space. */
  lemma {:induction false} TableCaptionStripped(i: nat)
    ensures Strip(Text(TableCaption(i))) == "Таблица " + DecimalString(i) + " " + [EnDash]
  {
    var t := TableCaptionText(i);
    var u := "Таблица " + DecimalString(i) + " " + [EnDash];
    RunsTextSingle(TableCaption(i).runs[0]);
    assert TableCaption(i).runs == [TableCaption(i).runs[0]];
    assert Text(TableCaption(i)) == t;
    assert TrimStart(t) == t;
    assert t == u + " " && t[..|t| - 1] == u;
    assert TrimEnd(u) == u;
  }

  /** No table caption mentions a bibliography: neither marker can be found
      in a text without the letter `С`. */
  lemma {:induction false} TableCaptionIsNoMarker(i: nat)
    ensures !IsBibliographyMarker(TableCaption(i))
  {
    TableCaptionStripped(i);
    TableCaptionUpperHasNoEs(i);
    NoEsNoMarker(Upper("Таблица " + DecimalString(i) + " " + [EnDash]));
  }

  /** The upper-cased stripped caption has no letter `С`. */
  lemma {:induction false} TableCaptionUpperHasNoEs(i: nat)
    ensures 'С' !in Upper("Таблица " + DecimalString(i) + " " + [EnDash])
  {
    var d := DecimalString(i);
    var u := "Таблица " + d + " " + [EnDash];
    var up := Upper(u);
    forall k | 0 <= k < |u| ensures up[k] != 'С' {
      if 8 <= k < 8 + |d| {
        assert u[k] == d[k - 8];
      }
    }
  }

  /** Both markers hold the letter `С`. */
  lemma {:induction false} NoEsNoMarker(up: string)
    requires 'С' !in up
    ensures !HasBibliographyMarker(up)
  {
    var m1 := "СПИСОК ИСПОЛЬЗОВАННЫХ ИСТОЧНИКОВ";
    var m2 := "БИБЛИОГРАФИЧЕСКИЙ СПИСОК";
    if Contains(up, m1) {
      ContainsHasChar(up, m1, 0);
    }
    if Contains(up, m2) {
      assert m2[13] == 'С';
      ContainsHasChar(up, m2, 13);
    }
  }

  /** A marker of the document survives the caption pass. */
  lemma {:induction false} MarkerSurvivesCaptions(ps: seq<Paragraph>, m: nat) returns (at: nat)
    requires m < |ps| && IsBibliographyMarker(ps[m])
    ensures at < |CaptionFigures(ps, 0)| && CaptionFigures(ps, 0)[at] == ps[m]
  {
    CaptionProofs.CaptionPlacement(ps, 0, m);
    at := m + ImageCount(ps[..m]);
  }

  /** The i-th table caption comes after every paragraph of the document
      and its figure captions. */
  lemma {:induction false} TableCaptionAt(ps: seq<Paragraph>, tables: nat, i: nat)
    requires 1 <= i <= tables
    ensures |ps| + ImageCount(ps) + i - 1 < |CaptionsPass(ps, tables)|
    ensures CaptionsPass(ps, tables)[|ps| + ImageCount(ps) + i - 1] == TableCaption(i)
  {
    CaptionProofs.CaptionsPassShape(ps, tables);
    CaptionProofs.CaptionFiguresImageCount(ps, 0);
    var ys := CaptionFigures(ps, 0);
    assert (ys + TableCaptions(tables))[|ys| + i - 1] == TableCaptions(tables)[i - 1];
  }

  /** A bibliography heading of the document is still in front of the table
      captions after the caption pass. */
  lemma {:induction false} MarkerBeforeTableCaptions(ps: seq<Paragraph>, tables: nat, m: nat) returns (at: nat)
    requires m < |ps| && IsBibliographyMarker(ps[m])
    ensures at < |ps| + ImageCount(ps) && at < |CaptionsPass(ps, tables)|
    ensures CaptionsPass(ps, tables)[at] == ps[m]
  {
    CaptionProofs.CaptionsPassShape(ps, tables);
    CaptionProofs.CaptionFiguresImageCount(ps, 0);
    var ys := CaptionFigures(ps, 0);
    at := MarkerSurvivesCaptions(ps, m);
    assert (ys + TableCaptions(tables))[at] == ys[at];
  }

  /** What the bibliography pass tests of a table caption. */
  lemma {:induction false} TableCaptionIsEntryCandidate(p: Paragraph, i: nat)
    requires p == TableCaption(i)
    ensures !IsBibliographyMarker(p) && Strip(Text(p)) != ""
  {
    TableCaptionIsNoMarker(i);
    TableCaptionStripped(i);
  }

  /** A table caption made a bibliography entry. */
  lemma {:induction false} TableCaptionAsEntry(i: nat)
    ensures var e := BibliographyEntry(TableCaption(i));
      Text(e) == "Таблица " + DecimalString(i) + " " + [EnDash] &&
      e.alignment == Justify && e.firstLineIndent == Some(-BaseIndent) && e.runs[0].size == Some(BaseFontSize)
  {
    TableCaptionStripped(i);
    BibliographyProofs.BibliographyEntryShape(TableCaption(i));
    CollapsedTableCaption(i);
  }

  /** A table caption anywhere after a bibliography heading is rewritten by
      the bibliography pass as an entry: justified with a hanging indent
      instead of centred, in 14 pt instead of 12 pt, and without its final
      space. The caption pass puts each table caption after every paragraph
      and figure caption (`TableCaptionAt`) and so after any bibliography
      heading of the document (`MarkerBeforeTableCaptions`): in a document
      with a bibliography this happens to every table caption. */
  lemma {:induction false} TableCaptionsInBibliography(xs: seq<Paragraph>, m: nat, at: nat, i: nat)
    requires m < at < |xs| && IsBibliographyMarker(xs[m]) && xs[at] == TableCaption(i)
    ensures var e := BibliographyPass(xs)[at];
      e == BibliographyEntry(TableCaption(i)) &&
      Text(e) == "Таблица " + DecimalString(i) + " " + [EnDash] &&
      e.alignment == Justify && e.firstLineIndent == Some(-BaseIndent) &&
      e.runs[0].size == Some(BaseFontSize)
  {
    TableCaptionIsEntryCandidate(xs[at], i);
    BibliographyProofs.AfterMarkerIsEntry(xs, m, at);
    TableCaptionAsEntry(i);
  }

  /** The stripped caption has single spaces only, so collapsing keeps it. */
  lemma {:induction false} CollapsedTableCaption(i: nat)
    ensures CollapseSpaces("Таблица " + DecimalString(i) + " " + [EnDash]) == "Таблица " + DecimalString(i) + " " + [EnDash]
  {
    var u := "Таблица " + DecimalString(i) + " " + [EnDash];
    NumberedCaptionCollapsed(DecimalString(i));
    CollapseSpacesOfCollapsed(u);
  }

  /** The spaces of the caption text stand alone: the number has none. */
  lemma {:induction false} NumberedCaptionCollapsed(d: string)
    requires |d| >= 1 && AllDigits(d)
    ensures Collapsed("Таблица " + d + " " + [EnDash])
  {
    var u := "Таблица " + d + " " + [EnDash];
    forall k | 0 <= k < |u| ensures IsSpace(u[k]) ==> u[k] == ' ' && (k + 1 < |u| ==> !IsSpace(u[k + 1])) {
      if 8 <= k < 8 + |d| {
        assert u[k] == d[k - 8];
      } else if k == 7 {
        assert u[k + 1] == d[0];
      }
    }
  }
}
