/** Properties of `_format_tables_and_figures` (formatter.py:248-288): where the
    figure captions go, how they are numbered, and what the table captions are. */
module CaptionProofs {
  import opened Strings
  import opened Patterns
  import opened DocModel
  import opened Passes

  lemma {:induction false} ImageCountConcat(a: seq<Paragraph>, b: seq<Paragraph>)
    ensures ImageCount(a + b) == ImageCount(a) + ImageCount(b)
  {
    if a == [] {
      assert a + b == b;
    } else {
      assert (a + b)[1..] == a[1..] + b;
      ImageCountConcat(a[1..], b);
    }
  }

  /** A run of paragraphs without images has image count zero. */
  lemma {:induction false} ImageCountZero(a: seq<Paragraph>)
    requires forall j :: 0 <= j < |a| ==> !a[j].hasImage
    ensures ImageCount(a) == 0
  {
    if a != [] {
      ImageCountZero(a[1..]);
    }
  }

  /** Captioning a concatenation captions each part, the second numbered on
      from the images of the first. */
  lemma {:induction false} CaptionFiguresConcat(a: seq<Paragraph>, b: seq<Paragraph>, k: nat)
    ensures CaptionFigures(a + b, k) == CaptionFigures(a, k) + CaptionFigures(b, k + ImageCount(a))
  {
    if a == [] {
      assert a + b == b;
    } else {
      assert (a + b)[1..] == a[1..] + b;
      assert (a + b)[0] == a[0];
      if a[0].hasImage {
        CaptionFiguresConcat(a[1..], b, k + 1);
      } else {
        CaptionFiguresConcat(a[1..], b, k);
      }
    }
  }

  /** Paragraphs without images get no captions. */
  lemma {:induction false} CaptionFiguresNoImages(a: seq<Paragraph>, k: nat)
    requires forall j :: 0 <= j < |a| ==> !a[j].hasImage
    ensures CaptionFigures(a, k) == a
  {
    if a != [] {
      CaptionFiguresNoImages(a[1..], k);
    }
  }

  /** A caption paragraph holds no drawing. */
  lemma {:induction false} CaptionFiguresImageCount(a: seq<Paragraph>, k: nat)
    ensures |CaptionFigures(a, k)| == |a| + ImageCount(a)
    ensures ImageCount(CaptionFigures(a, k)) == ImageCount(a)
  {
    if a != [] {
      if a[0].hasImage {
        CaptionFiguresImageCount(a[1..], k + 1);
        var rest := CaptionFigures(a[1..], k + 1);
        assert CaptionFigures(a, k) == [a[0]] + ([FigureCaption(k + 1)] + rest);
        ImageCountConcat([a[0]], [FigureCaption(k + 1)] + rest);
        ImageCountConcat([FigureCaption(k + 1)], rest);
      } else {
        CaptionFiguresImageCount(a[1..], k);
        ImageCountConcat([a[0]], CaptionFigures(a[1..], k));
      }
    }
  }

  /** Where paragraph i and its caption end up: the i-th original paragraph
      moves down by the number of images before it, and an image paragraph is
      immediately followed by the caption carrying its 1-based rank. */
  lemma {:induction false} CaptionPlacement(a: seq<Paragraph>, k: nat, i: nat)
    requires i < |a|
    ensures |CaptionFigures(a, k)| == |a| + ImageCount(a)
    ensures i + ImageCount(a[..i]) < |CaptionFigures(a, k)|
    ensures CaptionFigures(a, k)[i + ImageCount(a[..i])] == a[i]
    ensures a[i].hasImage ==> i + ImageCount(a[..i]) + 1 < |CaptionFigures(a, k)|
    ensures a[i].hasImage ==>
      CaptionFigures(a, k)[i + ImageCount(a[..i]) + 1] == FigureCaption(k + ImageCount(a[..i]) + 1)
  {
    CaptionFiguresImageCount(a, k);
    var pre, post := a[..i], a[i..];
    assert a == pre + post;
    CaptionFiguresConcat(pre, post, k);
    CaptionFiguresImageCount(pre, k);
    ImageCountConcat(pre, post);
    var m := k + ImageCount(pre);
    assert post[0] == a[i];
    if a[i].hasImage {
      assert CaptionFigures(post, m) == [a[i], FigureCaption(m + 1)] + CaptionFigures(post[1..], m + 1);
    } else {
      assert CaptionFigures(post, m) == [a[i]] + CaptionFigures(post[1..], m);
    }
  }

  /** The number of images before index i grows by one exactly at images, so
      the original paragraphs keep their relative order. */
  lemma {:induction false} ImageCountPrefixStep(a: seq<Paragraph>, i: nat)
    requires i < |a|
    ensures ImageCount(a[..i + 1]) == ImageCount(a[..i]) + (if a[i].hasImage then 1 else 0)
  {
    assert a[..i + 1] == a[..i] + [a[i]];
    ImageCountConcat(a[..i], [a[i]]);
  }

  lemma {:induction false} PlacementMonotone(a: seq<Paragraph>, i: nat, j: nat)
    requires i < j <= |a|
    ensures i + ImageCount(a[..i]) < j + ImageCount(a[..j])
    decreases j - i
  {
    ImageCountPrefixStep(a, j - 1);
    if i < j - 1 {
      PlacementMonotone(a, i, j - 1);
    }
  }

  /** `_format_tables_and_figures` as a whole: the table captions, numbered
      1..tables, come after every original paragraph, and the count grows by
      tables + images. */
  lemma {:induction false} CaptionsPassShape(ps: seq<Paragraph>, tables: nat)
    ensures |CaptionsPass(ps, tables)| == |ps| + tables + ImageCount(ps)
    ensures CaptionsPass(ps, tables) == CaptionFigures(ps, 0) + TableCaptions(tables)
    ensures ImageCount(CaptionsPass(ps, tables)) == ImageCount(ps)
  {
    var caps := TableCaptions(tables);
    TableCaptionsHaveNoImages(tables);
    CaptionsPassValue(ps, tables);
    CaptionFiguresImageCount(ps, 0);
    ImageCountConcat(CaptionFigures(ps, 0), caps);
  }

  lemma {:induction false} TableCaptionsHaveNoImages(tables: nat)
    ensures forall j :: 0 <= j < |TableCaptions(tables)| ==> !TableCaptions(tables)[j].hasImage
    ensures ImageCount(TableCaptions(tables)) == 0 && |TableCaptions(tables)| == tables
  {
    ImageCountZero(TableCaptions(tables));
  }

  /** The table captions, having no drawing, get no figure caption. */
  lemma {:induction false} CaptionsPassValue(ps: seq<Paragraph>, tables: nat)
    requires forall j :: 0 <= j < |TableCaptions(tables)| ==> !TableCaptions(tables)[j].hasImage
    ensures CaptionsPass(ps, tables) == CaptionFigures(ps, 0) + TableCaptions(tables)
  {
    CaptionsAppendPlain(ps, TableCaptions(tables));
  }

  /** Paragraphs without images appended to a document come out unchanged
      after its captioned part. */
  lemma {:induction false} CaptionsAppendPlain(ps: seq<Paragraph>, caps: seq<Paragraph>)
    requires forall j :: 0 <= j < |caps| ==> !caps[j].hasImage
    ensures CaptionFigures(ps + caps, 0) == CaptionFigures(ps, 0) + caps
  {
    CaptionFiguresConcat(ps, caps, 0);
    CaptionFiguresNoImages(caps, ImageCount(ps));
  }

  /** The pass never recognises captions it made before: running it again adds
      a second round of table and figure captions. */
  lemma {:induction false} CaptionsPassTwice(ps: seq<Paragraph>, tables: nat)
    ensures |CaptionsPass(CaptionsPass(ps, tables), tables)| == |ps| + 2 * (tables + ImageCount(ps))
  {
    CaptionsPassShape(ps, tables);
    CaptionsPassShape(CaptionsPass(ps, tables), tables);
  }

  /** An appended table caption reads `Таблица i – ` and is recognised as a
      table caption by `_format_main_text`'s test; a figure caption reads
      `Рисунок k`, without the dash that test requires. */
  lemma {:induction false} CaptionTexts(i: nat, k: nat)
    ensures StartsTableCaption(TableCaptionText(i))
    ensures DigitsValue(TableCaptionText(i)[8..8 + |DecimalString(i)|]) == i
    ensures !StartsFigureCaption(FigureCaptionText(k))
  {
    var d := DecimalString(i);
    var t := TableCaptionText(i);
    assert t[..8] == "Таблица ";
    var rest := t[8..];
    assert rest == d + " " + [EnDash] + " ";
    assert rest[..|d|] == d;
    LeadingDigitsUnique(rest, |d|);
    assert t[8..8 + |d|] == d;
    DecimalStringRoundTrip(i);
  }

  // ---------------------------------------------------------------------
  // The two loops of formatter.py:263-285: collect the image indices, then
  // insert the captions from the last image backwards.

  /** figs lists exactly the indices of the image paragraphs of ps, ascending. */
  ghost predicate ExactImageIndices(ps: seq<Paragraph>, figs: seq<nat>) {
    (forall m :: 0 <= m < |figs| ==> figs[m] < |ps| && ps[figs[m]].hasImage) &&
    (forall m, n :: 0 <= m < n < |figs| ==> figs[m] < figs[n]) &&
    (forall j :: 0 <= j < |ps| && ps[j].hasImage ==> j in figs)
  }

  /** Where the part of the document already captioned starts once the images
      figs[r..] have their captions. */
  function Cut(figs: seq<nat>, r: nat, n: nat): nat
    requires r <= |figs|
  {
    if r == |figs| then n else figs[r]
  }

  lemma {:induction false} NoImagesBetween(ps: seq<Paragraph>, figs: seq<nat>, r: nat)
    requires ExactImageIndices(ps, figs) && r <= |figs|
    ensures forall j :: (if r == 0 then 0 else figs[r - 1] + 1) <= j < Cut(figs, r, |ps|) ==> !ps[j].hasImage
  {
  }

  /** Inserting the caption of the image at index `at`, numbered r, in front of
      the already captioned part that starts at cut. */
  lemma {:induction false} InsertCaption(base: seq<Paragraph>, at: nat, cut: nat, r: nat)
    requires at < cut <= |base| && base[at].hasImage && r >= 1
    requires forall j :: at < j < cut ==> !base[j].hasImage
    ensures var cur := base[..cut] + CaptionFigures(base[cut..], r);
            at + 1 <= |cur| &&
            cur[..at + 1] + [FigureCaption(r)] + cur[at + 1..] == base[..at] + CaptionFigures(base[at..], r - 1)
  {
    var tail := CaptionFigures(base[cut..], r);
    CaptionedFromImage(base, at, cut, r);
    SpliceCaption(base, at, cut, FigureCaption(r), tail);
  }

  /** Captioning from an image on: the image, its caption, the plain
      paragraphs up to cut, then the rest captioned. */
  lemma {:induction false} CaptionedFromImage(base: seq<Paragraph>, at: nat, cut: nat, r: nat)
    requires at < cut <= |base| && base[at].hasImage && r >= 1
    requires forall j :: at < j < cut ==> !base[j].hasImage
    ensures CaptionFigures(base[at..], r - 1) ==
      [base[at], FigureCaption(r)] + base[at + 1..cut] + CaptionFigures(base[cut..], r)
  {
    var xs := base[at..];
    var mid := base[at + 1..cut];
    var tail := base[cut..];
    assert xs[0] == base[at] && xs[1..] == mid + tail;
    CaptionFiguresOfImageHead(xs, r - 1);
    PlainThenRest(mid, tail, r);
  }

  lemma {:induction false} CaptionFiguresOfImageHead(xs: seq<Paragraph>, k: nat)
    requires xs != [] && xs[0].hasImage
    ensures CaptionFigures(xs, k) == [xs[0], FigureCaption(k + 1)] + CaptionFigures(xs[1..], k + 1)
  {
  }

  /** Plain paragraphs in front of a part leave its numbering alone. */
  lemma {:induction false} PlainThenRest(mid: seq<Paragraph>, tail: seq<Paragraph>, k: nat)
    requires forall j :: 0 <= j < |mid| ==> !mid[j].hasImage
    ensures CaptionFigures(mid + tail, k) == mid + CaptionFigures(tail, k)
  {
    CaptionFiguresNoImages(mid, k);
    ImageCountZero(mid);
    CaptionFiguresConcat(mid, tail, k);
  }

  /** Putting c right after index at of `base[..cut] + t`. */
  lemma {:induction false} SpliceCaption(base: seq<Paragraph>, at: nat, cut: nat, c: Paragraph, t: seq<Paragraph>)
    requires at < cut <= |base|
    ensures var cur := base[..cut] + t;
            at + 1 <= |cur| &&
            cur[..at + 1] + [c] + cur[at + 1..] == base[..at] + ([base[at], c] + base[at + 1..cut] + t)
  {
    var cur := base[..cut] + t;
    assert cur[..at + 1] == base[..at] + [base[at]];
    assert cur[at + 1..] == base[at + 1..cut] + t;
  }

  /** The document once the images of rank above r have their captions. */
  ghost function Captioned(base: seq<Paragraph>, figs: seq<nat>, r: nat): seq<Paragraph>
    requires ExactImageIndices(base, figs) && r <= |figs|
  {
    base[..Cut(figs, r, |base|)] + CaptionFigures(base[Cut(figs, r, |base|)..], r)
  }

  /** Inserting the caption of image r (1-based) extends the captioned part. */
  lemma {:induction false} FigureStep(base: seq<Paragraph>, figs: seq<nat>, r: nat)
    requires ExactImageIndices(base, figs) && 1 <= r <= |figs|
    ensures var cur := Captioned(base, figs, r);
            var at := figs[r - 1];
            at + 1 <= |cur| &&
            cur[..at + 1] + [FigureCaption(r)] + cur[at + 1..] == Captioned(base, figs, r - 1)
  {
    NoImagesBetween(base, figs, r);
    InsertCaption(base, figs[r - 1], Cut(figs, r, |base|), r);
  }

  lemma {:induction false} CaptionFiguresAfterPlainPrefix(base: seq<Paragraph>, cut: nat)
    requires cut <= |base| && forall j :: 0 <= j < cut ==> !base[j].hasImage
    ensures base[..cut] + CaptionFigures(base[cut..], 0) == CaptionFigures(base, 0)
  {
    var pre := base[..cut];
    CaptionFiguresNoImages(pre, 0);
    ImageCountZero(pre);
    assert base == pre + base[cut..];
    CaptionFiguresConcat(pre, base[cut..], 0);
  }

  /** Once every image has its caption, the result is CaptionFigures. */
  lemma {:induction false} FiguresDone(base: seq<Paragraph>, figs: seq<nat>)
    requires ExactImageIndices(base, figs)
    ensures Captioned(base, figs, 0) == CaptionFigures(base, 0)
  {
    NoImagesBetween(base, figs, 0);
    CaptionFiguresAfterPlainPrefix(base, Cut(figs, 0, |base|));
  }
}
