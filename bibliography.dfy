/** Properties of `_format_bibliography` (formatter.py:291-314): nothing before
    the first marker changes, the markers and blank paragraphs never change,
    every other paragraph after a marker becomes a one-run entry with a hanging
    indent and normalised text, and a second run changes nothing. */
module BibliographyProofs {
  import opened Strings
  import opened Patterns
  import opened DocModel
  import opened Passes

  /** A marker sets the flag `bibliography_started` for the rest of the
      loop. */
  lemma {:induction false} StartedAfterMarker(ps: seq<Paragraph>, m: nat, i: nat)
    requires m < i <= |ps| && IsBibliographyMarker(ps[m])
    ensures BibliographyStarted(ps[..i])
    decreases i
  {
    assert ps[..i][..i - 1] == ps[..i - 1];
    if m < i - 1 {
      StartedAfterMarker(ps, m, i - 1);
    } else {
      assert ps[..i][i - 1] == ps[m];
    }
  }

  /** The flag is set only by a marker: the first one is returned. */
  lemma {:induction false} MarkerOfStarted(ps: seq<Paragraph>, i: nat) returns (m: nat)
    requires i <= |ps| && BibliographyStarted(ps[..i])
    ensures m < i && IsBibliographyMarker(ps[m])
    decreases i
  {
    assert ps[..i][..i - 1] == ps[..i - 1] && ps[..i][i - 1] == ps[i - 1];
    if BibliographyStarted(ps[..i - 1]) {
      m := MarkerOfStarted(ps, i - 1);
    } else {
      m := i - 1;
    }
  }

  /** Before any marker the flag is clear. */
  lemma {:induction false} NotStartedBeforeMarkers(ps: seq<Paragraph>, i: nat)
    requires i <= |ps| && forall j :: 0 <= j < i ==> !IsBibliographyMarker(ps[j])
    ensures !BibliographyStarted(ps[..i])
  {
    if BibliographyStarted(ps[..i]) {
      var m := MarkerOfStarted(ps, i);
    }
  }

  /** Once set, the flag stays set. */
  lemma {:induction false} StartedMonotone(ps: seq<Paragraph>, i: nat, j: nat)
    requires i <= j <= |ps| && BibliographyStarted(ps[..i])
    ensures BibliographyStarted(ps[..j])
  {
    var m := MarkerOfStarted(ps, i);
    StartedAfterMarker(ps, m, j);
  }

  /** An entry holds one run in the base font whose text is the paragraph's
      text stripped and with whitespace collapsed; it hangs 1.25 cm and is
      justified, and holds no drawing. */
  lemma {:induction false} BibliographyEntryShape(p: Paragraph)
    ensures var e := BibliographyEntry(p);
      Text(e) == Normalize(Text(p)) && Collapsed(Text(e)) && Strip(Text(e)) == Text(e) &&
      |e.runs| == 1 && e.runs[0].fontName == Some(BaseFontName) && e.runs[0].size == Some(BaseFontSize) &&
      e.firstLineIndent == Some(-BaseIndent) && e.leftIndent == Some(BaseIndent) &&
      e.alignment == Justify && !e.hasImage &&
      (Strip(Text(p)) != "" ==> Text(e) != "")
  {
    EntryText(p);
    NormalizeIdempotent(Text(p));
  }

  lemma {:induction false} EntryText(p: Paragraph)
    ensures Text(BibliographyEntry(p)) == Normalize(Text(p))
  {
    RunsTextSingle(BaseRun(Normalize(Text(p))));
  }

  /** Formatting an entry again gives the same entry. */
  lemma {:induction false} BibliographyEntryIdempotent(p: Paragraph)
    ensures BibliographyEntry(BibliographyEntry(p)) == BibliographyEntry(p)
  {
    BibliographyEntryShape(p);
    NormalizeIdempotent(Text(p));
  }

  /** Paragraphs before the first marker are left as they are. */
  lemma {:induction false} BeforeFirstMarkerUnchanged(ps: seq<Paragraph>, k: nat)
    requires k <= |ps|
    requires forall j :: 0 <= j < k ==> !IsBibliographyMarker(ps[j])
    ensures BibliographyPass(ps)[..k] == ps[..k]
  {
    forall i | 0 <= i < k ensures BibliographyPass(ps)[i] == ps[i] {
      NotStartedBeforeMarkers(ps, i);
    }
  }

  /** Markers and paragraphs whose stripped text is empty never change. */
  lemma {:induction false} MarkersAndBlanksUnchanged(ps: seq<Paragraph>, i: nat)
    requires i < |ps| && (IsBibliographyMarker(ps[i]) || Strip(Text(ps[i])) == "")
    ensures BibliographyPass(ps)[i] == ps[i]
  {
  }

  /** Every other paragraph after a marker becomes an entry. */
  lemma {:induction false} AfterMarkerIsEntry(ps: seq<Paragraph>, m: nat, i: nat)
    requires m < i < |ps| && IsBibliographyMarker(ps[m])
    requires !IsBibliographyMarker(ps[i]) && Strip(Text(ps[i])) != ""
    ensures var r := BibliographyPass(ps)[i];
      r == BibliographyEntry(ps[i]) && Text(r) == Normalize(Text(ps[i])) && Text(r) != "" &&
      r.firstLineIndent == Some(-BaseIndent) && r.leftIndent == Some(BaseIndent) && r.alignment == Justify
  {
    StartedAfterMarker(ps, m, i);
    BibliographyEntryShape(ps[i]);
  }

  /** The pass sets the flag at the same place as before it: markers stay,
      and a paragraph it changes comes after the flag is set. */
  lemma {:induction false} BibliographyPassKeepsFlag(ps: seq<Paragraph>, j: nat)
    requires j <= |ps|
    ensures BibliographyStarted(BibliographyPass(ps)[..j]) == BibliographyStarted(ps[..j])
  {
    if j > 0 {
      var r := BibliographyPass(ps);
      BibliographyPassKeepsFlag(ps, j - 1);
      BibliographyStartedStep(r, j - 1);
      BibliographyStartedStep(ps, j - 1);
    }
  }

  /** One paragraph under a second run: the flag is the same and an entry
      stays the same entry. */
  lemma {:induction false} BibliographyStepStable(p: Paragraph, started: bool)
    ensures BibliographyStep(BibliographyStep(p, started), started) == BibliographyStep(p, started)
  {
    if !IsBibliographyMarker(p) && started && Strip(Text(p)) != "" {
      BibliographyEntryShape(p);
      BibliographyEntryIdempotent(p);
    }
  }

  /** Running `_format_bibliography` on its own output changes nothing. */
  lemma {:induction false} BibliographyPassIdempotent(ps: seq<Paragraph>)
    ensures BibliographyPass(BibliographyPass(ps)) == BibliographyPass(ps)
  {
    var r := BibliographyPass(ps);
    forall i | 0 <= i < |ps| ensures BibliographyPass(r)[i] == r[i] {
      BibliographyPassKeepsFlag(ps, i);
      BibliographyStepStable(ps[i], BibliographyStarted(ps[..i]));
    }
  }
}
