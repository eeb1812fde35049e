/** Properties of `_format_headings` (formatter.py:182-202): what it does to a
    section heading and to a subsection heading, that its two tests never both
    hold, and that it changes no text and nothing on a second run. */
module HeadingProofs {
  import opened Strings
  import opened Patterns
  import opened DocModel
  import opened Passes

  /** Making runs bold and sized keeps their text and font and their number. */
  lemma {:induction false} EmphasizeKeepsText(rs: seq<Run>, size: int)
    ensures |Emphasize(rs, size)| == |rs|
    ensures RunsText(Emphasize(rs, size)) == RunsText(rs)
    ensures forall j :: 0 <= j < |rs| ==>
      Emphasize(rs, size)[j].bold == Some(true) && Emphasize(rs, size)[j].size == Some(size) &&
      Emphasize(rs, size)[j].fontName == rs[j].fontName && Emphasize(rs, size)[j].text == rs[j].text
  {
    RunsTextSameTexts(Emphasize(rs, size), rs);
  }

  /** Emphasizing again with the same size changes nothing. */
  lemma {:induction false} EmphasizeIdempotent(rs: seq<Run>, size: int)
    ensures Emphasize(Emphasize(rs, size), size) == Emphasize(rs, size)
  {
  }

  /** What `_format_headings` does to one paragraph. A section heading has
      every run bold at 16 pt, is centred and has no first-line indent;
      otherwise a paragraph whose raw text starts like `1.1` has every run
      bold at 14 pt and no first-line indent and keeps its alignment; any
      other paragraph is left as it is. The text never changes. */
  lemma {:induction false} HeadingStepEffect(p: Paragraph)
    ensures var q := HeadingStep(p);
      Text(q) == Text(p) && |q.runs| == |p.runs| &&
      (IsSectionHeading(p) ==>
         q.alignment == Center && q.firstLineIndent == Some(0) &&
         forall j :: 0 <= j < |q.runs| ==> q.runs[j].bold == Some(true) && q.runs[j].size == Some(SectionHeadingSize)) &&
      (!IsSectionHeading(p) && StartsSubsection(Text(p)) ==>
         q.alignment == p.alignment && q.firstLineIndent == Some(0) &&
         forall j :: 0 <= j < |q.runs| ==> q.runs[j].bold == Some(true) && q.runs[j].size == Some(SubsectionHeadingSize)) &&
      (!IsSectionHeading(p) && !StartsSubsection(Text(p)) ==> q == p)
  {
    EmphasizeKeepsText(p.runs, SectionHeadingSize);
    EmphasizeKeepsText(p.runs, SubsectionHeadingSize);
  }

  /** Running `_format_headings` on its own output changes nothing. */
  lemma {:induction false} HeadingStepIdempotent(p: Paragraph)
    ensures HeadingStep(HeadingStep(p)) == HeadingStep(p)
  {
    HeadingStepEffect(p);
    EmphasizeIdempotent(p.runs, SectionHeadingSize);
    EmphasizeIdempotent(p.runs, SubsectionHeadingSize);
  }

  lemma {:induction false} HeadingsPassIdempotent(ps: seq<Paragraph>)
    ensures HeadingsPass(HeadingsPass(ps)) == HeadingsPass(ps)
  {
    forall i | 0 <= i < |ps| ensures HeadingsPass(HeadingsPass(ps))[i] == HeadingsPass(ps)[i] {
      HeadingStepIdempotent(ps[i]);
    }
  }

  /** No section name starts with a digit. */
  lemma {:induction false} SectionNamesStartWithLetters()
    ensures forall k :: 0 <= k < |SectionNames| ==> |SectionNames[k]| > 0 && !IsDigit(SectionNames[k][0])
  {
  }

  /** No section name has a list closer second. */
  lemma {:induction false} SectionNamesHaveNoCloser()
    ensures forall k :: 0 <= k < |SectionNames| ==> |SectionNames[k]| > 1 && !IsListCloser(SectionNames[k][1])
  {
  }

  /** A text starting with a digit keeps that digit first when stripped and
      upper-cased, so it is not a section name. */
  lemma {:induction false} DigitStartIsNoSectionName(t: string)
    requires |t| > 0 && IsDigit(t[0])
    ensures Upper(Strip(t)) !in SectionNames
  {
    StripOfNonSpaceStart(t);
    UpperKeepsDigitStart(Strip(t));
    DigitStartIsNoSectionNameText(Upper(Strip(t)));
  }

  lemma {:induction false} DigitStartIsNoSectionNameText(u: string)
    requires |u| > 0 && IsDigit(u[0])
    ensures u !in SectionNames
  {
    SectionNamesStartWithLetters();
  }

  /** The two tests of `_format_headings` never both hold, so the order in
      which it makes them does not matter. */
  lemma {:induction false} HeadingTestsExclusive(p: Paragraph)
    ensures !(IsSectionHeading(p) && StartsSubsection(Text(p)))
  {
    if StartsSubsection(Text(p)) {
      DigitStartIsNoSectionName(Text(p));
    }
  }

  /** The subsection test is made on the raw text: a leading space hides a
      subsection number from `_format_headings`, which the later passes,
      testing the stripped text, still see. */
  lemma {:induction false} SubsectionTestIsOnRawText()
    ensures !StartsSubsection(" 1.1 x") && StartsSubsection(Strip(" 1.1 x"))
  {
    SpacedNumberIsNoSubsection();
    SpacedNumberStripped();
    NumberIsSubsection();
  }

  lemma {:induction false} SpacedNumberIsNoSubsection()
    ensures !StartsSubsection(" 1.1 x")
  {
    assert LeadingDigits(" 1.1 x") == 0;
  }

  lemma {:induction false} SpacedNumberStripped()
    ensures Strip(" 1.1 x") == "1.1 x"
  {
    assert " 1.1 x" == " " + "1.1 x";
    StripAfterSpace("1.1 x");
  }

  lemma {:induction false} NumberIsSubsection()
    ensures StartsSubsection("1.1 x")
  {
    LeadingDigitsUnique("1.1 x", 1);
  }
}
