/** Properties of `_format_main_text` and `_format_paragraphs`
    (formatter.py:205-245), and of how the list, heading, alignment and
    indent passes combine on one paragraph. */
module StyleProofs {
  import opened Strings
  import opened Patterns
  import opened DocModel
  import opened Passes
  import ListProofs
  import HeadingProofs

  /** `_format_main_text` changes only the alignment: a paragraph ends up
      justified unless it is centred or its stripped text is a caption, a
      section name or starts like `1.1`, and then it keeps its alignment.
      A centred paragraph stays centred. */
  lemma {:induction false} MainTextStepEffect(p: Paragraph)
    ensures var q := MainTextStep(p);
      q == p.(alignment := q.alignment) &&
      (q.alignment == p.alignment || q.alignment == Justify) &&
      (!KeepsAlignment(p) ==> q.alignment == Justify) &&
      (KeepsAlignment(p) ==> q == p) &&
      (p.alignment == Center ==> q.alignment == Center)
  {
  }

  /** After `_format_main_text` every paragraph is justified or kept its
      alignment for one of the reasons above. */
  lemma {:induction false} MainTextPassAlignment(ps: seq<Paragraph>)
    ensures |MainTextPass(ps)| == |ps|
    ensures forall i :: 0 <= i < |ps| ==>
      MainTextPass(ps)[i].alignment == Justify || (KeepsAlignment(ps[i]) && MainTextPass(ps)[i] == ps[i])
  {
  }

  lemma {:induction false} MainTextStepIdempotent(p: Paragraph)
    ensures MainTextStep(MainTextStep(p)) == MainTextStep(p)
  {
    var q := MainTextStep(p);
    if !KeepsAlignment(p) {
      assert Text(q) == Text(p);
      assert !KeepsAlignment(q);
    }
  }

  /** `_format_paragraphs` sets 1.5 line spacing everywhere and a 1.25 cm
      first-line indent exactly on paragraphs whose stripped text is not
      empty, not a list item, not a section name, does not start like `1.1`
      and which are not centred; every other paragraph gets indent 0. Nothing
      else changes. */
  lemma {:induction false} ParagraphStepEffect(p: Paragraph)
    ensures var q := ParagraphStep(p);
      var t := Strip(Text(p));
      q.lineSpacing == Some(BaseLineSpacing) &&
      (q.firstLineIndent == Some(BaseIndent) <==>
         t != "" && !IsListItem(t) && Upper(t) !in SectionNames && !StartsSubsection(t) && p.alignment != Center) &&
      (q.firstLineIndent == Some(BaseIndent) || q.firstLineIndent == Some(0)) &&
      q == p.(lineSpacing := q.lineSpacing, firstLineIndent := q.firstLineIndent)
  {
  }

  lemma {:induction false} ParagraphStepIdempotent(p: Paragraph)
    ensures ParagraphStep(ParagraphStep(p)) == ParagraphStep(p)
  {
    assert Text(ParagraphStep(p)) == Text(p);
  }

  lemma {:induction false} ParagraphsPassIdempotent(ps: seq<Paragraph>)
    ensures ParagraphsPass(ParagraphsPass(ps)) == ParagraphsPass(ps)
  {
    forall i | 0 <= i < |ps| ensures ParagraphsPass(ParagraphsPass(ps))[i] == ParagraphsPass(ps)[i] {
      ParagraphStepIdempotent(ps[i]);
    }
  }

  lemma {:induction false} MainTextPassIdempotent(ps: seq<Paragraph>)
    ensures MainTextPass(MainTextPass(ps)) == MainTextPass(ps)
  {
    forall i | 0 <= i < |ps| ensures MainTextPass(MainTextPass(ps))[i] == MainTextPass(ps)[i] {
      MainTextStepIdempotent(ps[i]);
    }
  }

  /** A list item is never a section name nor a subsection heading. */
  lemma {:induction false} ListItemIsNoHeading(t: string)
    requires IsListItem(t)
    ensures Upper(t) !in SectionNames && !StartsSubsection(t)
  {
    assert Upper(t)[0] == UpperChar(t[0]) && Upper(t)[1] == UpperChar(t[1]);
    if IsDigit(t[0]) {
      HeadingProofs.SectionNamesStartWithLetters();
      ListProofs.ListItemOfDigit(t);
    } else {
      HeadingProofs.SectionNamesHaveNoCloser();
      assert LeadingDigits(t) == 0;
      assert IsListCloser(UpperChar(t[1]));
    }
  }

  /** A raw text that starts like `1.1` is not a list item once stripped. */
  lemma {:induction false} SubsectionIsNoListItem(x: string)
    requires StartsSubsection(x)
    ensures !IsListItem(Strip(x))
  {
    var n := LeadingDigits(x);
    assert x[..n][0] == x[0];
    StripOfNonSpaceStart(x);
    var t := TrimEnd(x);
    TrimEndSpaces(x);
    assert t == x[..|t|] && t[0] == x[0];
    assert !IsSpace(x[n + 1]) && n + 1 < |t|;
    ListProofs.LeadingDigitsOfPrefix(x, |t|);
    assert LeadingDigits(t) == n && t[n] == '.' && !IsSpace(t[n + 1]);
    assert LowerChar(t[0]) == t[0];
  }

  /** `_format_headings` leaves a list item alone. */
  lemma {:induction false} ListItemSkipsHeadings(p: Paragraph)
    requires IsListParagraph(p)
    ensures HeadingStep(p) == p
  {
    ListItemIsNoHeading(Strip(Text(p)));
    if StartsSubsection(Text(p)) {
      SubsectionIsNoListItem(Text(p));
    }
  }

  /** A list item leaves the list, heading, alignment and indent passes
      justified, with no indents and 1.5 line spacing. */
  lemma {:induction false} ListItemStyle(p: Paragraph)
    requires IsListParagraph(p)
    ensures var q := ParagraphStep(MainTextStep(HeadingStep(ListStep(p))));
      q.alignment == Justify && q.firstLineIndent == Some(0) && q.leftIndent == Some(0) &&
      q.rightIndent == Some(0) && q.lineSpacing == Some(BaseLineSpacing)
  {
    ListProofs.ListStepKeepsListItem(p);
    var l := ListStep(p);
    ListProofs.ListStepEffect(p);
    ListItemSkipsHeadings(l);
    MainTextStepEffect(l);
    assert Text(MainTextStep(l)) == Text(l);
  }

  /** A section heading leaves the heading, alignment and indent passes
      centred, bold at 16 pt, with no first-line indent. */
  lemma {:induction false} SectionHeadingStyle(p: Paragraph)
    requires IsSectionHeading(p)
    ensures var q := ParagraphStep(MainTextStep(HeadingStep(p)));
      q.alignment == Center && q.firstLineIndent == Some(0) && q.lineSpacing == Some(BaseLineSpacing) &&
      forall j :: 0 <= j < |q.runs| ==> q.runs[j].bold == Some(true) && q.runs[j].size == Some(SectionHeadingSize)
  {
    HeadingProofs.HeadingStepEffect(p);
    var h := HeadingStep(p);
    MainTextStepEffect(h);
  }
}
