/** Properties of `_generate_toc` (formatter.py:317-352): it fails only on a
    document with no paragraphs, keeps the document as it was (after a new
    contents title when it had none), then appends one blank paragraph and one
    entry per heading, and it lists exactly the paragraphs whose stripped text
    is a contents heading, in document order. */
module TocProofs {
  import opened Strings
  import opened Patterns
  import opened DocModel
  import opened Passes

  lemma {:induction false} TocHeadingsConcat(a: seq<Paragraph>, b: seq<Paragraph>)
    ensures TocHeadings(a + b) == TocHeadings(a) + TocHeadings(b)
    decreases |b|
  {
    if b == [] {
      assert a + b == a;
    } else {
      var c := b[..|b| - 1];
      assert (a + b)[..|a + b| - 1] == a + c;
      assert (a + b)[|a + b| - 1] == b[|b| - 1];
      TocHeadingsConcat(a, c);
    }
  }

  lemma {:induction false} TocHeadingsSingle(p: Paragraph)
    ensures TocHeadings([p]) == if IsTocHeading(Strip(Text(p))) then [Strip(Text(p))] else []
  {
    assert [p][..0] == [];
  }

  /** A heading is listed exactly when some paragraph's stripped text is that
      heading. */
  lemma {:induction false} TocHeadingsMembership(ps: seq<Paragraph>, h: string)
    ensures h in TocHeadings(ps) <==>
      IsTocHeading(h) && exists j :: 0 <= j < |ps| && Strip(Text(ps[j])) == h
  {
    if h in TocHeadings(ps) {
      var j := TocHeadingSource(ps, h);
    }
    if IsTocHeading(h) && exists j :: 0 <= j < |ps| && Strip(Text(ps[j])) == h {
      var j :| 0 <= j < |ps| && Strip(Text(ps[j])) == h;
      TocHeadingListed(ps, j);
    }
  }

  /** Every paragraph whose stripped text is a heading is listed. */
  lemma {:induction false} TocHeadingListed(ps: seq<Paragraph>, j: nat)
    requires j < |ps| && IsTocHeading(Strip(Text(ps[j])))
    ensures Strip(Text(ps[j])) in TocHeadings(ps)
  {
    var init := ps[..|ps| - 1];
    var last := Strip(Text(ps[|ps| - 1]));
    assert TocHeadings(ps) == TocHeadings(init) + (if IsTocHeading(last) then [last] else []);
    if j < |ps| - 1 {
      assert init[j] == ps[j];
      TocHeadingListed(init, j);
    }
  }

  /** Every listed heading is the stripped text of some paragraph. */
  lemma {:induction false} TocHeadingSource(ps: seq<Paragraph>, h: string) returns (j: nat)
    requires h in TocHeadings(ps)
    ensures j < |ps| && Strip(Text(ps[j])) == h && IsTocHeading(h)
  {
    var init := ps[..|ps| - 1];
    var last := Strip(Text(ps[|ps| - 1]));
    assert TocHeadings(ps) == TocHeadings(init) + (if IsTocHeading(last) then [last] else []);
    if h in TocHeadings(init) {
      j := TocHeadingSource(init, h);
      assert ps[j] == init[j];
    } else {
      j := |ps| - 1;
    }
  }

  /** There are no more headings than paragraphs, and each is a contents
      heading. */
  lemma {:induction false} TocHeadingsBound(ps: seq<Paragraph>)
    ensures |TocHeadings(ps)| <= |ps|
    ensures forall k :: 0 <= k < |TocHeadings(ps)| ==> IsTocHeading(TocHeadings(ps)[k])
  {
    if ps != [] {
      TocHeadingsBound(ps[..|ps| - 1]);
    }
  }

  lemma {:induction false} ContentsTitleText()
    ensures Text(ContentsTitle) == "СОДЕРЖАНИЕ"
  {
    RunsTextSingle(ContentsTitle.runs[0]);
    assert ContentsTitle.runs == [ContentsTitle.runs[0]];
  }

  /** The contents title is not itself listed. */
  lemma {:induction false} ContentsTitleIsNoHeading()
    ensures TocHeadings([ContentsTitle]) == []
  {
    ContentsTitleText();
    TitleIsNoTocHeading();
    TocHeadingsSingle(ContentsTitle);
  }

  lemma {:induction false} TitleIsNoTocHeading()
    ensures !IsTocHeading(Strip("СОДЕРЖАНИЕ"))
  {
    TitleStripped();
    TitleUpper();
    TitleIsNoTocName();
    TitleIsNotNumbered();
  }

  lemma {:induction false} TitleIsNotNumbered()
    ensures LeadingDigits("СОДЕРЖАНИЕ") == 0
  {
  }

  lemma {:induction false} TitleStripped()
    ensures Strip("СОДЕРЖАНИЕ") == "СОДЕРЖАНИЕ"
  {
    StripOfNoSpaceEnds("СОДЕРЖАНИЕ");
  }

  lemma {:induction false} TitleUpper()
    ensures Upper("СОДЕРЖАНИЕ") == "СОДЕРЖАНИЕ"
  {
  }

  lemma {:induction false} TitleIsNoTocName()
    ensures "СОДЕРЖАНИЕ" !in TocSectionNames
  {
    assert TocSectionNames[1][0] != 'С';
  }

  /** The blank paragraph is not listed. */
  lemma {:induction false} NewParagraphIsNoHeading()
    ensures TocHeadings([NewParagraph]) == []
  {
    NewParagraphText();
    EmptyIsNoTocHeading();
    TocHeadingsSingle(NewParagraph);
  }

  lemma {:induction false} NewParagraphText()
    ensures Strip(Text(NewParagraph)) == ""
  {
    assert Text(NewParagraph) == "";
    StripOfEmpty();
  }

  lemma {:induction false} StripOfEmpty()
    ensures Strip("") == ""
  {
    assert TrimStart("") == "";
  }

  lemma {:induction false} EmptyIsNoTocHeading()
    ensures !IsTocHeading("")
  {
    assert Upper("") == "";
    assert LeadingDigits("") == 0;
  }

  lemma {:induction false} TocHeadingsAppendBlank(xs: seq<Paragraph>)
    ensures TocHeadings(xs + [NewParagraph]) == TocHeadings(xs)
  {
    NewParagraphIsNoHeading();
    TocHeadingsConcat(xs, [NewParagraph]);
  }

  lemma {:induction false} TocHeadingsPrependTitle(xs: seq<Paragraph>)
    ensures TocHeadings([ContentsTitle] + xs) == TocHeadings(xs)
  {
    ContentsTitleIsNoHeading();
    TocHeadingsConcat([ContentsTitle], xs);
  }

  /** Neither the contents title nor the blank paragraph is listed. */
  lemma {:induction false} TocBodyHeadings(ps: seq<Paragraph>)
    ensures TocHeadings(TocBody(ps)) == TocHeadings(ps)
  {
    var front := if AnyContents(ps) then ps else [ContentsTitle] + ps;
    TocHeadingsAppendBlank(front);
    if !AnyContents(ps) {
      TocHeadingsPrependTitle(ps);
    }
  }

  /** An entry reads `heading 1` in the base font and has no indents. */
  lemma {:induction false} TocEntryShape(h: string)
    ensures var e := TocEntry(h);
      Text(e) == h + " 1" && |e.runs| == 2 && e.leftIndent == Some(0) && e.firstLineIndent == Some(0) &&
      forall j :: 0 <= j < 2 ==> e.runs[j].fontName == Some(BaseFontName) && e.runs[j].size == Some(BaseFontSize)
  {
    var rs := TocEntry(h).runs;
    RunsTextConcat([rs[0]], [rs[1]]);
    assert rs == [rs[0]] + [rs[1]];
    RunsTextSingle(rs[0]);
    RunsTextSingle(rs[1]);
  }

  /** The layout of the result, given the body and the entries. */
  lemma {:induction false} TocLayout(ps: seq<Paragraph>, off: nat, hs: seq<string>, r: seq<Paragraph>)
    requires off <= 1
    requires r == (if off == 0 then ps else [ContentsTitle] + ps) + [NewParagraph] + TocEntries(hs)
    ensures |r| == off + |ps| + 1 + |hs| && (off == 1 ==> r[0] == ContentsTitle) &&
      r[off..off + |ps|] == ps && r[off + |ps|] == NewParagraph &&
      r[off + |ps| + 1..] == TocEntries(hs)
  {
    var front := if off == 0 then ps else [ContentsTitle] + ps;
    assert |front| == off + |ps|;
    assert r[..|front|] == front;
    assert front[off..] == ps;
  }

  /** `_generate_toc` fails only on a document with no paragraphs, where
      `doc.paragraphs[0]` raises. */
  lemma {:induction false} TocPassFails(ps: seq<Paragraph>)
    ensures TocPass(ps).None? <==> ps == []
  {
    if ps == [] {
      assert !AnyContents(ps);
    }
  }

  /** The pass's value, with the headings counted on the original document. */
  lemma {:induction false} TocPassValue(ps: seq<Paragraph>) returns (r: seq<Paragraph>)
    requires ps != []
    ensures r == TocBody(ps) + TocEntries(TocHeadings(ps)) && TocPass(ps) == Some(r)
  {
    TocBodyHeadings(ps);
    r := TocBody(ps) + TocEntries(TocHeadings(ps));
  }

  /** When some paragraph mentions the contents, the document is kept and
      followed by one blank paragraph and one entry for each of its headings,
      in order. */
  lemma {:induction false} TocPassWithContents(ps: seq<Paragraph>) returns (r: seq<Paragraph>)
    requires AnyContents(ps)
    ensures TocPass(ps) == Some(r)
    ensures |r| == |ps| + 1 + |TocHeadings(ps)| && r[..|ps|] == ps && r[|ps|] == NewParagraph
    ensures r[|ps| + 1..] == TocEntries(TocHeadings(ps))
  {
    r := TocPassValue(ps);
    assert TocBody(ps) == ps + [NewParagraph];
    TocLayout(ps, 0, TocHeadings(ps), r);
  }

  /** Otherwise, unless the document is empty, a centred bold 16 pt title
      `СОДЕРЖАНИЕ` comes first, then the document, one blank paragraph and
      one entry for each of its headings, in order. */
  lemma {:induction false} TocPassWithoutContents(ps: seq<Paragraph>) returns (r: seq<Paragraph>)
    requires !AnyContents(ps) && ps != []
    ensures TocPass(ps) == Some(r)
    ensures |r| == 1 + |ps| + 1 + |TocHeadings(ps)| && r[0] == ContentsTitle
    ensures r[1..1 + |ps|] == ps && r[1 + |ps|] == NewParagraph
    ensures r[|ps| + 2..] == TocEntries(TocHeadings(ps))
  {
    r := TocPassValue(ps);
    assert TocBody(ps) == [ContentsTitle] + ps + [NewParagraph];
    TocLayout(ps, 1, TocHeadings(ps), r);
  }

  /** After the pass the document mentions its contents, so `_generate_toc`
      finds a contents heading on the next run. */
  lemma {:induction false} TocPassAddsContents(ps: seq<Paragraph>)
    requires ps != []
    ensures AnyContents(TocPass(ps).value)
  {
    var r := TocPass(ps).value;
    if AnyContents(ps) {
      var j :| 0 <= j < |ps| && HasContents(ps[j]);
      assert r[j] == ps[j];
    } else {
      ContentsTitleText();
      var title := "СОДЕРЖАНИЕ";
      assert Upper(title) == title;
      assert title[0..|title|] == title;
      assert HasContents(r[0]);
    }
  }
}
