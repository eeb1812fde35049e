/** Properties of `_format_lists` (formatter.py:153-179): what it changes in a
    list item, that the paragraph stays a list item, and that running the pass
    a second time changes nothing. */
module ListProofs {
  import opened Strings
  import opened Patterns
  import opened DocModel
  import opened Passes

  /** A number, its closer c, exactly one space and then no further
      whitespace: the shape `re.sub(r'^(\d+c)\s+', r'\1 ', _)` leaves. */
  predicate SingleSpaceAfterNumber(r: string, n: nat, c: char) {
    |r| >= n + 2 && n >= 1 && AllDigits(r[..n]) && r[n] == c && r[n + 1] == ' ' &&
    (|r| > n + 2 ==> !IsSpace(r[n + 2]))
  }

  /** After a number and its closer, the whitespace becomes a single space;
      nothing but whitespace is removed. */
  lemma {:induction false} CollapseAfterNumberForm(t: string, c: char)
    requires IsListCloser(c) && DigitsThenSpace(t, c)
    ensures var r := CollapseAfterNumber(t, c);
            SingleSpaceAfterNumber(r, LeadingDigits(t), c) &&
            r[..LeadingDigits(t) + 1] == t[..LeadingDigits(t) + 1] &&
            LeadingDigits(r) == LeadingDigits(t) &&
            NonSpace(r) == NonSpace(t)
  {
    CollapseAfterNumberShape(t, c);
    CollapseAfterNumberNonSpace(t, c);
  }

  lemma {:induction false} CollapseAfterNumberShape(t: string, c: char)
    requires IsListCloser(c) && DigitsThenSpace(t, c)
    ensures var r := CollapseAfterNumber(t, c);
            SingleSpaceAfterNumber(r, LeadingDigits(t), c) &&
            r[..LeadingDigits(t) + 1] == t[..LeadingDigits(t) + 1] &&
            LeadingDigits(r) == LeadingDigits(t)
  {
    var n, w := CollapsedValue(t, c);
    var a := t[..n + 1];
    SpliceParts(a, w, n);
    assert a[..n] == t[..n] && a[n] == c;
    var r := a + " " + w;
    assert AllDigits(r[..n]) && !IsDigit(r[n]);
    LeadingDigitsUnique(r, n);
  }

  /** The pieces of `a + " " + w`. */
  lemma {:induction false} SpliceParts(a: string, w: string, n: nat)
    requires n < |a|
    ensures var r := a + " " + w;
      |r| == |a| + 1 + |w| && r[..n] == a[..n] && r[n] == a[n] && r[..|a|] == a && r[|a|] == ' ' &&
      r[|a| + 1..] == w && (|w| > 0 ==> r[|a| + 1] == w[0])
  {
  }

  lemma {:induction false} CollapseAfterNumberNonSpace(t: string, c: char)
    requires IsListCloser(c) && DigitsThenSpace(t, c)
    ensures NonSpace(CollapseAfterNumber(t, c)) == NonSpace(t)
  {
    var n := LeadingDigits(t);
    assert t == t[..n + 1] + t[n + 1..];
    NonSpaceSpaceForWhitespace(t[..n + 1], t[n + 1..]);
  }

  /** Replacing the leading whitespace of a tail by one space keeps every
      non-space character. */
  lemma {:induction false} NonSpaceSpaceForWhitespace(pre: string, tail: string)
    ensures NonSpace(pre + " " + TrimStart(tail)) == NonSpace(pre + tail)
  {
    var w := TrimStart(tail);
    NonSpaceConcat(pre + " ", w);
    NonSpaceConcat(pre, " ");
    assert NonSpace(" ") == [];
    NonSpaceTrimStart(tail);
    NonSpaceConcat(pre, tail);
  }

  /** `re.sub(r'^(\d+c)\s+', r'\1 ', _)` applied twice is applied once. */
  lemma {:induction false} CollapseAfterNumberIdempotent(t: string, c: char)
    requires IsListCloser(c)
    ensures CollapseAfterNumber(CollapseAfterNumber(t, c), c) == CollapseAfterNumber(t, c)
  {
    if DigitsThenSpace(t, c) {
      CollapseAfterNumberShape(t, c);
      SingleSpaceKept(CollapseAfterNumber(t, c), LeadingDigits(t), c);
    }
  }

  /** A text that already has a single space after its number is kept. */
  lemma {:induction false} SingleSpaceKept(r: string, n: nat, c: char)
    requires IsListCloser(c) && SingleSpaceAfterNumber(r, n, c) && LeadingDigits(r) == n
    ensures CollapseAfterNumber(r, c) == r
  {
    var m, w := CollapsedValue(r, c);
    var rest := r[n + 2..];
    SplitAround(r, n + 1);
    assert [r[n + 1]] == " ";
    assert |rest| > 0 ==> rest[0] == r[n + 2];
    TrimStartAfterSpace(rest);
  }

  lemma {:induction false} SplitAround(r: string, k: nat)
    requires k < |r|
    ensures r[k..] == [r[k]] + r[k + 1..] && r == r[..k] + [r[k]] + r[k + 1..]
  {
  }

  /** One space in front of a text not starting with whitespace is all that
      trimming removes. */
  lemma {:induction false} TrimStartAfterSpace(s: string)
    requires |s| > 0 ==> !IsSpace(s[0])
    ensures TrimStart(" " + s) == s
  {
    var x := " " + s;
    assert x[0] == ' ' && x[1..] == s;
    if |s| > 0 {
      assert TrimStart(s) == s;
    }
  }

  /** Collapsing after one closer does not create or destroy the form with
      the other closer. */
  lemma {:induction false} CollapseAfterNumberOtherCloser(t: string, c: char, d: char)
    requires IsListCloser(c) && IsListCloser(d) && c != d
    ensures DigitsThenSpace(CollapseAfterNumber(t, c), d) == DigitsThenSpace(t, d)
  {
    if DigitsThenSpace(t, c) {
      CollapseAfterNumberForm(t, c);
    }
  }

  lemma {:induction false} CollapseAfterNumberNoTab(t: string, c: char)
    requires '\t' !in t && IsListCloser(c)
    ensures '\t' !in CollapseAfterNumber(t, c)
  {
    if DigitsThenSpace(t, c) {
      var n, w := CollapsedValue(t, c);
      MissingFromParts(t, '\t', n + 1);
      MissingFromSplice(t[..n + 1], w, '\t');
    }
  }

  lemma {:induction false} MissingFromSplice(a: string, w: string, x: char)
    requires x !in a && x !in w && x != ' '
    ensures x !in a + " " + w
  {
  }

  /** A character missing from a string is missing from its two sides and
      from the right side left-stripped. */
  lemma {:induction false} MissingFromParts(t: string, x: char, n: nat)
    requires x !in t && n <= |t|
    ensures x !in t[..n] && x !in t[n..] && x !in TrimStart(t[n..])
  {
  }

  lemma {:induction false} ReplaceTabsLeadingDigits(t: string)
    ensures LeadingDigits(ReplaceTabs(t)) == LeadingDigits(t)
  {
    var u := ReplaceTabs(t);
    var n := LeadingDigits(t);
    assert u[..n] == t[..n];
    LeadingDigitsUnique(u, n);
  }

  /** What `_format_lists` makes of the first run's text: no tab is left,
      only whitespace changes, and after a leading `N.` or `N)` there is
      exactly one space, with the number kept in front of it and the rest of
      the tab-free text, from its first non-space character on, kept behind
      it; text that starts with neither only has its tabs replaced. */
  lemma {:induction false} CleanListRunEffect(t: string, c: char)
    requires IsListCloser(c)
    ensures '\t' !in CleanListRun(t)
    ensures NonSpace(CleanListRun(t)) == NonSpace(t)
    ensures DigitsThenSpace(ReplaceTabs(t), c) ==> SingleSpaceAfterNumber(CleanListRun(t), LeadingDigits(t), c)
    ensures !DigitsThenSpace(ReplaceTabs(t), '.') && !DigitsThenSpace(ReplaceTabs(t), ')') ==>
      CleanListRun(t) == ReplaceTabs(t)
    ensures var u := ReplaceTabs(t); var n := LeadingDigits(u);
      DigitsThenSpace(u, c) ==> CleanListRun(t) == u[..n + 1] + " " + TrimStart(u[n + 1..])
  {
    var u := ReplaceTabs(t);
    ReplaceTabsSameShape(t);
    NonSpaceSameShape(t, u);
    ReplaceTabsLeadingDigits(t);
    var s := CollapseAfterNumber(u, '.');
    CollapseAfterNumberNoTab(u, '.');
    CollapseAfterNumberNoTab(s, ')');
    CollapseAfterNumberOtherCloser(u, '.', ')');
    if DigitsThenSpace(u, '.') {
      CollapseAfterNumberForm(u, '.');
      assert !DigitsThenSpace(s, ')');
    } else if DigitsThenSpace(u, ')') {
      CollapseAfterNumberForm(u, ')');
    }
  }

  /** Cleaning the first run twice is cleaning it once. */
  lemma {:induction false} CleanListRunIdempotent(t: string)
    ensures CleanListRun(CleanListRun(t)) == CleanListRun(t)
  {
    var u := ReplaceTabs(t);
    var s := CollapseAfterNumber(u, '.');
    var r := CollapseAfterNumber(s, ')');
    CleanListRunEffect(t, '.');
    ReplaceTabsSameShape(r);
    assert ReplaceTabs(r) == r;
    CollapseAfterNumberOtherCloser(u, '.', ')');
    CollapseAfterNumberOtherCloser(s, ')', '.');
    if DigitsThenSpace(u, '.') {
      CollapseAfterNumberForm(u, '.');
      assert r == s;
      CollapseAfterNumberIdempotent(u, '.');
    } else {
      assert s == u;
      CollapseAfterNumberIdempotent(u, ')');
    }
  }

  lemma {:induction false} SameShapeLeadingDigits(u: string, v: string)
    requires SameShape(u, v)
    ensures LeadingDigits(u) == LeadingDigits(v)
  {
    var n := LeadingDigits(u);
    assert forall i :: 0 <= i < n ==> v[..n][i] == u[..n][i];
    LeadingDigitsUnique(v, n);
  }

  /** Whether a text is a list item depends only on where its whitespace is
      and on its other characters. */
  lemma {:induction false} SameShapeListItem(u: string, v: string)
    requires SameShape(u, v)
    ensures IsListItem(u) == IsListItem(v)
  {
    SameShapeNumbered(u, v, '.');
    SameShapeNumbered(u, v, ')');
    if |u| >= 3 {
      SameShapeLettered(u, v);
    }
  }

  lemma {:induction false} SameShapeLettered(u: string, v: string)
    requires SameShape(u, v) && |u| >= 3
    ensures RangeThenSpace(u, 'а', 'я', '.') == RangeThenSpace(v, 'а', 'я', '.')
    ensures RangeThenSpace(u, 'а', 'я', ')') == RangeThenSpace(v, 'а', 'я', ')')
    ensures RangeThenSpace(u, 'a', 'z', '.') == RangeThenSpace(v, 'a', 'z', '.')
    ensures RangeThenSpace(u, 'a', 'z', ')') == RangeThenSpace(v, 'a', 'z', ')')
  {
    SameShapeAt(u, v, 0);
    SameShapeAt(u, v, 1);
    SameShapeAt(u, v, 2);
    SameShapeLowerChar(u[0], v[0]);
    SameShapeLowerChar(u[1], v[1]);
    SameShapeLowerChar(u[2], v[2]);
    if IsSpace(u[0]) {
      CaseMapKeepsSpaces(u[0]);
      CaseMapKeepsSpaces(v[0]);
      SpaceIsNoListLetter(u[0]);
      SpaceIsNoListLetter(v[0]);
    }
    if IsSpace(u[1]) {
      CaseMapKeepsSpaces(u[1]);
      CaseMapKeepsSpaces(v[1]);
    }
  }

  lemma {:induction false} SpaceIsNoListLetter(c: char)
    requires IsSpace(c)
    ensures !('а' <= c <= 'я') && !('a' <= c <= 'z')
  {
  }

  lemma {:induction false} SameShapeNumbered(u: string, v: string, c: char)
    requires SameShape(u, v) && !IsSpace(c)
    ensures DigitsThenSpace(u, c) == DigitsThenSpace(v, c)
  {
    SameShapeLeadingDigits(u, v);
    var n := LeadingDigits(u);
    if n + 1 < |u| {
      SameShapeAt(u, v, n);
      SameShapeAt(u, v, n + 1);
    }
  }

  lemma {:induction false} SameShapeAt(u: string, v: string, i: nat)
    requires SameShape(u, v) && i < |u|
    ensures (IsSpace(u[i]) <==> IsSpace(v[i])) && (!IsSpace(u[i]) ==> u[i] == v[i])
  {
  }

  /** Two characters both whitespace, or equal, have lower cases of the same
      kind. */
  lemma {:induction false} SameShapeLowerChar(a: char, b: char)
    requires (IsSpace(a) <==> IsSpace(b)) && (!IsSpace(a) ==> a == b)
    ensures IsSpace(LowerChar(a)) == IsSpace(LowerChar(b)) && (!IsSpace(a) ==> LowerChar(a) == LowerChar(b))
  {
    CaseMapKeepsSpaces(a);
    CaseMapKeepsSpaces(b);
  }

  /** When a text that starts with `N` and a closer and a space is a list
      item once stripped, something other than whitespace follows that space. */
  lemma {:induction false} TextAfterListNumber(u: string, rest: string, c: char)
    requires IsListCloser(c) && DigitsThenSpace(u, c) && IsListItem(Strip(u + rest))
    ensures exists k :: LeadingDigits(u) + 2 <= k < |u + rest| && !IsSpace((u + rest)[k])
  {
    var x := u + rest;
    NumberedTextStart(u, rest, c);
    StripOfNonSpaceStart(x);
    NumberedItemLength(Strip(x));
    var k := LastCharAfterNumber(x);
  }

  /** Text that follows `N` and a closer keeps the digit first and the
      number as it was. */
  lemma {:induction false} NumberedTextStart(u: string, rest: string, c: char)
    requires IsListCloser(c) && DigitsThenSpace(u, c)
    ensures |u + rest| > 0 && IsDigit((u + rest)[0]) && !IsSpace((u + rest)[0])
    ensures LeadingDigits(u + rest) == LeadingDigits(u)
  {
    var n := LeadingDigits(u);
    LeadingDigitsOfConcat(u, rest);
    assert u[..n][0] == u[0] == (u + rest)[0];
  }

  /** When the right-stripped text has a whitespace character after its
      number, its last character lies beyond that and is no whitespace. */
  lemma {:induction false} LastCharAfterNumber(x: string) returns (k: nat)
    requires var t := TrimEnd(x);
      LeadingDigits(t) + 1 < |t| && IsSpace(t[LeadingDigits(t) + 1])
    ensures LeadingDigits(x) + 2 <= k < |x| && !IsSpace(x[k])
  {
    var tx := TrimEnd(x);
    LeadingDigitsOfPrefix(x, |tx|);
    var n := LeadingDigits(x);
    assert LeadingDigits(tx) == n;
    k := |tx| - 1;
    assert tx[n + 1] == x[n + 1] && tx[k] == x[k];
  }

  /** Text after a leading number that ends before the string does has no
      effect on the number. */
  lemma {:induction false} LeadingDigitsOfConcat(u: string, rest: string)
    requires LeadingDigits(u) < |u|
    ensures LeadingDigits(u + rest) == LeadingDigits(u)
  {
    var n := LeadingDigits(u);
    assert (u + rest)[..n] == u[..n] && (u + rest)[n] == u[n];
    LeadingDigitsUnique(u + rest, n);
  }

  /** A numbered list item has its closer and its space inside the text. */
  lemma {:induction false} NumberedItemLength(t: string)
    requires |t| > 0 && IsDigit(t[0]) && IsListItem(t)
    ensures LeadingDigits(t) + 1 < |t| && IsSpace(t[LeadingDigits(t) + 1])
  {
    ListItemOfDigit(t);
  }

  /** A prefix of s has the leading digits of s, cut off at its own length. */
  lemma {:induction false} LeadingDigitsOfPrefix(s: string, j: nat)
    requires j <= |s|
    ensures LeadingDigits(s[..j]) == if LeadingDigits(s) < j then LeadingDigits(s) else j
  {
    var n := LeadingDigits(s);
    if n < j {
      assert s[..j][..n] == s[..n] && s[..j][n] == s[n];
      LeadingDigitsUnique(s[..j], n);
    } else {
      assert s[..j] == s[..n][..j];
      LeadingDigitsUnique(s[..j], j);
    }
  }

  /** A list item that starts with a digit is a numbered one. */
  lemma {:induction false} ListItemOfDigit(t: string)
    requires |t| > 0 && IsDigit(t[0]) && IsListItem(t)
    ensures DigitsThenSpace(t, '.') || DigitsThenSpace(t, ')')
  {
  }

  /** Collapsing the whitespace after a leading number in the first run keeps
      the whole paragraph text a list item. */
  lemma {:induction false} ListItemAfterCollapse(u: string, rest: string, c: char)
    requires IsListCloser(c) && DigitsThenSpace(u, c) && IsListItem(Strip(u + rest))
    ensures IsListItem(Strip(CollapseAfterNumber(u, c) + rest))
  {
    TextAfterListNumber(u, rest, c);
    var k :| LeadingDigits(u) + 2 <= k < |u + rest| && !IsSpace((u + rest)[k]);
    var k2 := CollapseKeepsLaterText(u, rest, c, k);
    CollapseAfterNumberShape(u, c);
    ListItemOfNonSpaceAfter(CollapseAfterNumber(u, c), rest, c, LeadingDigits(u), k2);
  }

  /** A non-space character after the number's space is still there after
      the collapse, again after the single space. */
  lemma {:induction false} CollapseKeepsLaterText(u: string, rest: string, c: char, k: nat) returns (k2: nat)
    requires IsListCloser(c) && DigitsThenSpace(u, c)
    requires LeadingDigits(u) + 2 <= k < |u + rest| && !IsSpace((u + rest)[k])
    ensures LeadingDigits(u) + 2 <= k2 < |CollapseAfterNumber(u, c) + rest|
    ensures !IsSpace((CollapseAfterNumber(u, c) + rest)[k2])
  {
    var n, w := CollapsedValue(u, c);
    var x := u + rest;
    var r := u[..n + 1] + " " + w;
    var y := r + rest;
    if k < |u| {
      var tail := u[n + 1..];
      assert tail[k - n - 1] == u[k] == x[k];
      TrimStartSpaces(tail);
      k2 := n + 2;
      assert y[k2] == w[0];
    } else {
      k2 := |r| + k - |u|;
      assert y[k2] == rest[k - |u|] == x[k];
    }
  }

  /** The value of `re.sub(r'^(\d+c)\s+', r'\1 ', u)` when the pattern matches. */
  lemma {:induction false} CollapsedValue(u: string, c: char) returns (n: nat, w: string)
    requires DigitsThenSpace(u, c)
    ensures n == LeadingDigits(u) && n + 1 < |u| && w == TrimStart(u[n + 1..])
    ensures CollapseAfterNumber(u, c) == u[..n + 1] + " " + w
  {
    n := LeadingDigits(u);
    w := TrimStart(u[n + 1..]);
  }

  /** `N`, a closer, a space and a later non-space character make a list
      item, whatever follows. */
  lemma {:induction false} ListItemOfNonSpaceAfter(r: string, rest: string, c: char, n: nat, k: nat)
    requires IsListCloser(c) && SingleSpaceAfterNumber(r, n, c)
    requires n + 2 <= k < |r + rest| && !IsSpace((r + rest)[k])
    ensures IsListItem(Strip(r + rest))
  {
    var y := r + rest;
    assert y[0] == r[..n][0];
    StripOfNonSpaceStart(y);
    var ty := TrimEnd(y);
    TrimEndSpaces(y);
    assert |ty| > k;
    assert ty[..n] == r[..n];
    assert ty[n] == r[n] && ty[n + 1] == r[n + 1];
    LeadingDigitsUnique(ty, n);
    assert DigitsThenSpace(ty, c);
  }

  /** The text of a paragraph whose first run's text is replaced. */
  lemma {:induction false} TextWithFirstRun(p: Paragraph, t: string)
    requires |p.runs| > 0
    ensures Text(p.(runs := [p.runs[0].(text := t)] + p.runs[1..])) == t + RunsText(p.runs[1..])
    ensures Text(p) == p.runs[0].text + RunsText(p.runs[1..])
  {
    var rs := [p.runs[0].(text := t)] + p.runs[1..];
    assert rs[1..] == p.runs[1..];
  }

  /** A list item stays a list item after `_format_lists` has cleaned it. */
  lemma {:induction false} ListStepKeepsListItem(p: Paragraph)
    requires IsListParagraph(p)
    ensures IsListParagraph(ListStep(p))
  {
    if |p.runs| > 0 {
      var t := p.runs[0].text;
      var rest := RunsText(p.runs[1..]);
      TextWithFirstRun(p, CleanListRun(t));
      var u := ReplaceTabs(t);
      ReplaceTabsSameShape(t);
      SameShapeConcat(t, u, rest);
      SameShapeStrip(t + rest, u + rest);
      SameShapeListItem(Strip(t + rest), Strip(u + rest));
      var s := CollapseAfterNumber(u, '.');
      CollapseAfterNumberOtherCloser(u, '.', ')');
      if DigitsThenSpace(u, '.') {
        ListItemAfterCollapse(u, rest, '.');
        CollapseAfterNumberForm(u, '.');
        assert CleanListRun(t) == s;
      } else if DigitsThenSpace(u, ')') {
        ListItemAfterCollapse(u, rest, ')');
      }
    }
  }

  /** What `_format_lists` does to one paragraph: a list item gets zero
      indents and justification and only its first run's text changes; any
      other paragraph is left as it is. */
  lemma {:induction false} ListStepEffect(p: Paragraph)
    ensures !IsListParagraph(p) ==> ListStep(p) == p
    ensures IsListParagraph(p) ==>
      var q := ListStep(p);
      q.firstLineIndent == Some(0) && q.leftIndent == Some(0) && q.rightIndent == Some(0) &&
      q.alignment == Justify && |q.runs| == |p.runs| &&
      (forall j :: 1 <= j < |p.runs| ==> q.runs[j] == p.runs[j]) &&
      (|p.runs| > 0 ==> q.runs[0] == p.runs[0].(text := CleanListRun(p.runs[0].text))) &&
      q.spaceBefore == p.spaceBefore && q.spaceAfter == p.spaceAfter &&
      q.lineSpacing == p.lineSpacing && q.hasImage == p.hasImage
  {
    ListFormattedEffect(p);
  }

  lemma {:induction false} ListFormattedEffect(p: Paragraph)
    ensures var q := ListFormatted(p);
      q.firstLineIndent == Some(0) && q.leftIndent == Some(0) && q.rightIndent == Some(0) &&
      q.alignment == Justify && |q.runs| == |p.runs| &&
      (forall j :: 1 <= j < |p.runs| ==> q.runs[j] == p.runs[j]) &&
      (|p.runs| > 0 ==> q.runs[0] == p.runs[0].(text := CleanListRun(p.runs[0].text))) &&
      q.spaceBefore == p.spaceBefore && q.spaceAfter == p.spaceAfter &&
      q.lineSpacing == p.lineSpacing && q.hasImage == p.hasImage
  {
    if |p.runs| > 0 {
      var q := ListFormatted(p);
      assert q.runs == [p.runs[0].(text := CleanListRun(p.runs[0].text))] + p.runs[1..];
    }
  }

  /** `_format_lists` applied to its own output changes nothing. */
  lemma {:induction false} ListStepIdempotent(p: Paragraph)
    ensures ListStep(ListStep(p)) == ListStep(p)
  {
    if IsListParagraph(p) {
      ListStepKeepsListItem(p);
      var q := ListStep(p);
      if |p.runs| > 0 {
        CleanListRunIdempotent(p.runs[0].text);
        assert q.runs[0].text == CleanListRun(p.runs[0].text);
        assert [q.runs[0].(text := CleanListRun(q.runs[0].text))] + q.runs[1..] == q.runs;
      }
    }
  }

  lemma {:induction false} ListsPassIdempotent(ps: seq<Paragraph>)
    ensures ListsPass(ListsPass(ps)) == ListsPass(ps)
  {
    forall i | 0 <= i < |ps| ensures ListsPass(ListsPass(ps))[i] == ListsPass(ps)[i] {
      ListStepIdempotent(ps[i]);
    }
  }

  /** `_is_list_item` on a few texts: a subsection number, a bare number and
      the empty text are not list items. */
  lemma {:induction false} IsListItemExamples()
    ensures IsListItem("1. x")
    ensures IsListItem("b) x")
    ensures !IsListItem("1.1 x")
    ensures !IsListItem("1.")
    ensures !IsListItem("")
  {
    LeadingDigitsUnique("1. x", 1);
    LeadingDigitsUnique("1.1 x", 1);
    LeadingDigitsUnique("1.", 1);
  }
}
