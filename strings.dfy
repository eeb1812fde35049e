/** Character classes and string helpers shared by the formatter's text tests:
    the whitespace set used by Python's `str.strip()` and by `\s`, ASCII digits,
    a Latin + Cyrillic case map, trimming, whitespace collapsing and tab
    replacement. */
module Strings {

  /** The characters Python's `str.isspace()` accepts; `\s` in a `str` regex
      matches exactly these. */
  predicate IsSpace(c: char) {
    ('\t' <= c <= '\r') || ('\U{1C}' <= c <= '\U{1F}') || c == ' ' ||
    c == '\U{85}' || c == '\U{A0}' || c == '\U{1680}' ||
    ('\U{2000}' <= c <= '\U{200A}') || c == '\U{2028}' || c == '\U{2029}' ||
    c == '\U{202F}' || c == '\U{205F}' || c == '\U{3000}'
  }

  predicate IsDigit(c: char) {
    '0' <= c <= '9'
  }

  predicate AllDigits(s: string) {
    forall i :: 0 <= i < |s| ==> IsDigit(s[i])
  }

  /** Lower-case mapping for Latin A-Z and the Cyrillic capitals U+0400-U+042F. */
  function LowerChar(c: char): char {
    if 'A' <= c <= 'Z' then (c as int + 32) as char
    else if '\U{0410}' <= c <= '\U{042F}' then (c as int + 0x20) as char
    else if '\U{0400}' <= c <= '\U{040F}' then (c as int + 0x50) as char
    else c
  }

  /** Upper-case mapping, the inverse of LowerChar on the letters it covers. */
  function UpperChar(c: char): char {
    if 'a' <= c <= 'z' then (c as int - 32) as char
    else if '\U{0430}' <= c <= '\U{044F}' then (c as int - 0x20) as char
    else if '\U{0450}' <= c <= '\U{045F}' then (c as int - 0x50) as char
    else c
  }

  function Lower(s: string): string {
    seq(|s|, i requires 0 <= i < |s| => LowerChar(s[i]))
  }

  function Upper(s: string): string {
    seq(|s|, i requires 0 <= i < |s| => UpperChar(s[i]))
  }

  lemma {:induction false} CaseMapKeepsSpaces(c: char)
    ensures IsSpace(LowerChar(c)) <==> IsSpace(c)
    ensures IsSpace(c) ==> LowerChar(c) == c && UpperChar(c) == c
    ensures IsDigit(c) ==> LowerChar(c) == c && UpperChar(c) == c
  {
  }

  /** Lower-casing forgets the case an upper-casing introduced. */
  lemma {:induction false} LowerOfUpperChar(c: char)
    ensures LowerChar(UpperChar(c)) == LowerChar(c)
  {
  }

  lemma {:induction false} LowerOfUpper(s: string)
    ensures Lower(Upper(s)) == Lower(s)
  {
    forall i | 0 <= i < |s| ensures Lower(Upper(s))[i] == Lower(s)[i] {
      LowerOfUpperChar(s[i]);
    }
  }

  predicate StartsWith(s: string, prefix: string) {
    |prefix| <= |s| && s[..|prefix|] == prefix
  }

  predicate EndsWith(s: string, suffix: string) {
    |suffix| <= |s| && s[|s| - |suffix|..] == suffix
  }

  /** Python's `sub in s`. */
  predicate Contains(s: string, sub: string) {
    StartsWith(s, sub) || (|s| > 0 && Contains(s[1..], sub))
  }

  /** `s.lstrip()`: the string without its leading whitespace. */
  function TrimStart(s: string): (r: string)
    ensures |r| <= |s| && r == s[|s| - |r|..]
    ensures |r| > 0 ==> !IsSpace(r[0])
  {
    if |s| > 0 && IsSpace(s[0]) then TrimStart(s[1..]) else s
  }

  /** `s.rstrip()`: the string without its trailing whitespace. */
  function TrimEnd(s: string): (r: string)
    ensures |r| <= |s| && r == s[..|r|]
    ensures |r| > 0 ==> !IsSpace(r[|r| - 1])
  {
    if |s| > 0 && IsSpace(s[|s| - 1]) then TrimEnd(s[..|s| - 1]) else s
  }

  /** What TrimStart removes is whitespace. */
  lemma {:induction false} TrimStartSpaces(s: string)
    ensures forall i :: 0 <= i < |s| - |TrimStart(s)| ==> IsSpace(s[i])
    decreases |s|
  {
    if |s| > 0 && IsSpace(s[0]) {
      TrimStartSpaces(s[1..]);
      forall i | 1 <= i < |s| - |TrimStart(s)| ensures IsSpace(s[i]) {
        assert s[i] == s[1..][i - 1];
      }
    }
  }

  /** What TrimEnd removes is whitespace. */
  lemma {:induction false} TrimEndSpaces(s: string)
    ensures forall i :: |TrimEnd(s)| <= i < |s| ==> IsSpace(s[i])
    decreases |s|
  {
    if |s| > 0 && IsSpace(s[|s| - 1]) {
      TrimEndSpaces(s[..|s| - 1]);
      forall i | |TrimEnd(s)| <= i < |s| - 1 ensures IsSpace(s[i]) {
        assert s[i] == s[..|s| - 1][i];
      }
    }
  }

  /** `s.strip()`. */
  function Strip(s: string): string {
    TrimEnd(TrimStart(s))
  }

  /** `re.sub(r'\s+', ' ', s)`: every maximal run of whitespace becomes one space. */
  function CollapseSpaces(s: string): (r: string)
    decreases |s|
  {
    if s == [] then []
    else if IsSpace(s[0]) then " " + CollapseSpaces(TrimStart(s))
    else [s[0]] + CollapseSpaces(s[1..])
  }

  /** `s.replace('\t', ' ')`. */
  function ReplaceTabs(s: string): string {
    seq(|s|, i requires 0 <= i < |s| => if s[i] == '\t' then ' ' else s[i])
  }

  /** The string with every whitespace character deleted: what a reader sees
      of it apart from its spacing. */
  function NonSpace(s: string): string {
    if s == [] then [] else (if IsSpace(s[0]) then [] else [s[0]]) + NonSpace(s[1..])
  }

  /** No whitespace other than single spaces ' '. */
  predicate Collapsed(s: string) {
    forall i :: 0 <= i < |s| && IsSpace(s[i]) ==> s[i] == ' ' && (i + 1 < |s| ==> !IsSpace(s[i + 1]))
  }

  predicate NoSpaceEnds(s: string) {
    |s| > 0 ==> !IsSpace(s[0]) && !IsSpace(s[|s| - 1])
  }

  lemma {:induction false} StripEnds(s: string)
    ensures NoSpaceEnds(Strip(s))
    ensures Strip(s) == [] <==> forall i :: 0 <= i < |s| ==> IsSpace(s[i])
  {
    var t := TrimStart(s);
    var r := TrimEnd(t);
    TrimStartSpaces(s);
    TrimEndSpaces(t);
    if |r| > 0 {
      assert r[0] == t[0];
    }
    if r == [] {
      assert |t| == 0;
    }
  }

  /** A text that starts with a non-space keeps its start under strip. */
  lemma {:induction false} StripOfNonSpaceStart(x: string)
    requires |x| > 0 && !IsSpace(x[0])
    ensures Strip(x) == TrimEnd(x) && |Strip(x)| > 0 && Strip(x)[0] == x[0]
  {
    assert TrimStart(x) == x;
    TrimEndSpaces(x);
  }

  /** Upper-casing keeps a leading digit. */
  lemma {:induction false} UpperKeepsDigitStart(s: string)
    requires |s| > 0 && IsDigit(s[0])
    ensures |Upper(s)| > 0 && Upper(s)[0] == s[0]
  {
  }

  /** A string with no whitespace at either end is its own strip. */
  lemma {:induction false} StripOfNoSpaceEnds(s: string)
    requires NoSpaceEnds(s)
    ensures Strip(s) == s
  {
  }

  /** One leading space in front of a string without its own is stripped. */
  lemma {:induction false} StripAfterSpace(s: string)
    requires NoSpaceEnds(s)
    ensures Strip(" " + s) == s
  {
    var x := " " + s;
    assert x[0] == ' ' && x[1..] == s;
    assert TrimStart(x) == TrimStart(s);
    StripOfNoSpaceEnds(s);
  }

  lemma {:induction false} StripIdempotent(s: string)
    ensures Strip(Strip(s)) == Strip(s)
  {
    StripEnds(s);
    StripOfNoSpaceEnds(Strip(s));
  }

  /** The output of CollapseSpaces has only single spaces, and keeps a
      non-space first and last character. */
  lemma {:induction false} CollapseSpacesShape(s: string)
    ensures Collapsed(CollapseSpaces(s))
    ensures |s| > 0 ==> |CollapseSpaces(s)| > 0
    ensures |s| > 0 && !IsSpace(s[0]) ==> CollapseSpaces(s)[0] == s[0]
    ensures |s| > 0 && !IsSpace(s[|s| - 1]) ==> !IsSpace(CollapseSpaces(s)[|CollapseSpaces(s)| - 1])
    decreases |s|
  {
    if s == [] {
    } else if IsSpace(s[0]) {
      var t := TrimStart(s);
      TrimStartSpaces(s);
      CollapseSpacesShape(t);
      var c := CollapseSpaces(t);
      assert CollapseSpaces(s) == " " + c;
      if |t| > 0 {
        assert !IsSpace(t[0]) && c[0] == t[0];
        assert t[|t| - 1] == s[|s| - 1];
      }
      CollapsedAfterSpace(c);
    } else {
      CollapseSpacesShape(s[1..]);
      var c := CollapseSpaces(s[1..]);
      assert CollapseSpaces(s) == [s[0]] + c;
      if |s| > 1 {
        assert s[1..][|s| - 2] == s[|s| - 1];
      }
      CollapsedAfterChar(s[0], c);
    }
  }

  /** A single space in front of a collapsed text not starting with a space
      keeps it collapsed. */
  lemma {:induction false} CollapsedAfterSpace(c: string)
    requires Collapsed(c) && (|c| > 0 ==> !IsSpace(c[0]))
    ensures Collapsed(" " + c)
  {
    var x := " " + c;
    forall i | 0 <= i < |x| && IsSpace(x[i]) ensures x[i] == ' ' && (i + 1 < |x| ==> !IsSpace(x[i + 1])) {
      if i > 0 {
        assert x[i] == c[i - 1];
      }
    }
  }

  /** So does any other character. */
  lemma {:induction false} CollapsedAfterChar(a: char, c: string)
    requires !IsSpace(a) && Collapsed(c)
    ensures Collapsed([a] + c)
  {
    var x := [a] + c;
    forall i | 0 <= i < |x| && IsSpace(x[i]) ensures x[i] == ' ' && (i + 1 < |x| ==> !IsSpace(x[i + 1])) {
      assert i > 0 && x[i] == c[i - 1];
    }
  }

  /** A string that is already collapsed is a fixed point of CollapseSpaces. */
  lemma {:induction false} CollapseSpacesOfCollapsed(s: string)
    requires Collapsed(s)
    ensures CollapseSpaces(s) == s
    decreases |s|
  {
    if s != [] {
      CollapsedTail(s);
      CollapseSpacesOfCollapsed(s[1..]);
      if IsSpace(s[0]) {
        SingleSpaceTrimmed(s);
      }
    }
  }

  lemma {:induction false} CollapsedTail(s: string)
    requires Collapsed(s) && s != []
    ensures Collapsed(s[1..])
  {
    forall i | 0 <= i < |s[1..]| && IsSpace(s[1..][i])
      ensures s[1..][i] == ' ' && (i + 1 < |s[1..]| ==> !IsSpace(s[1..][i + 1]))
    {
      assert s[i + 1] == s[1..][i];
    }
  }

  /** A collapsed text starting with a space loses just that space when
      trimmed. */
  lemma {:induction false} SingleSpaceTrimmed(s: string)
    requires Collapsed(s) && s != [] && IsSpace(s[0])
    ensures s[0] == ' ' && TrimStart(s) == s[1..]
  {
    if |s| > 1 {
      assert !IsSpace(s[1]);
      assert TrimStart(s[1..]) == s[1..];
    }
  }

  /** The bibliography normalisation `re.sub(r'\s+', ' ', s.strip())`. */
  function Normalize(s: string): string {
    CollapseSpaces(Strip(s))
  }

  /** Normalising twice is normalising once, and its result is its own strip:
      a normalised entry has no whitespace at its ends and no run of two. */
  lemma {:induction false} NormalizeIdempotent(s: string)
    ensures Strip(Normalize(s)) == Normalize(s)
    ensures Normalize(Normalize(s)) == Normalize(s)
    ensures Collapsed(Normalize(s))
    ensures Strip(s) != [] ==> Normalize(s) != []
  {
    var t := Strip(s);
    StripEnds(s);
    CollapseKeepsNoSpaceEnds(t);
    var n := CollapseSpaces(t);
    StripOfNoSpaceEnds(n);
    CollapseSpacesOfCollapsed(n);
  }

  lemma {:induction false} CollapseKeepsNoSpaceEnds(t: string)
    requires NoSpaceEnds(t)
    ensures NoSpaceEnds(CollapseSpaces(t)) && Collapsed(CollapseSpaces(t))
    ensures t != [] ==> CollapseSpaces(t) != []
  {
    CollapseSpacesShape(t);
  }

  /** Replacing tabs keeps every character's whitespace class and every
      non-whitespace character. */
  lemma {:induction false} ReplaceTabsSameShape(s: string)
    ensures SameShape(s, ReplaceTabs(s))
    ensures '\t' !in ReplaceTabs(s)
    ensures '\t' !in s ==> ReplaceTabs(s) == s
  {
    if '\t' !in s {
      forall i | 0 <= i < |s| ensures ReplaceTabs(s)[i] == s[i] {
        assert s[i] in s;
      }
    }
  }

  /** Two strings of the same length with whitespace in the same places and
      equal characters everywhere else. */
  predicate SameShape(u: string, v: string) {
    |u| == |v| &&
    forall i :: 0 <= i < |u| ==> (IsSpace(u[i]) <==> IsSpace(v[i])) && (!IsSpace(u[i]) ==> u[i] == v[i])
  }

  lemma {:induction false} SameShapeConcat(u: string, v: string, w: string)
    requires SameShape(u, v)
    ensures SameShape(u + w, v + w)
  {
    forall i | 0 <= i < |u + w|
      ensures (IsSpace((u + w)[i]) <==> IsSpace((v + w)[i])) && (!IsSpace((u + w)[i]) ==> (u + w)[i] == (v + w)[i])
    {
      if i < |u| {
        assert (u + w)[i] == u[i] && (v + w)[i] == v[i];
      } else {
        assert (u + w)[i] == w[i - |u|] && (v + w)[i] == w[i - |u|];
      }
    }
  }

  lemma {:induction false} SameShapeTrimStart(u: string, v: string)
    requires SameShape(u, v)
    ensures SameShape(TrimStart(u), TrimStart(v))
    decreases |u|
  {
    if |u| > 0 && IsSpace(u[0]) {
      assert SameShape(u[1..], v[1..]) by {
        forall i | 0 <= i < |u| - 1
          ensures (IsSpace(u[1..][i]) <==> IsSpace(v[1..][i])) && (!IsSpace(u[1..][i]) ==> u[1..][i] == v[1..][i])
        {
          assert u[1..][i] == u[i + 1] && v[1..][i] == v[i + 1];
        }
      }
      SameShapeTrimStart(u[1..], v[1..]);
    }
  }

  lemma {:induction false} SameShapeTrimEnd(u: string, v: string)
    requires SameShape(u, v)
    ensures SameShape(TrimEnd(u), TrimEnd(v))
    decreases |u|
  {
    if |u| > 0 && IsSpace(u[|u| - 1]) {
      var n := |u| - 1;
      assert SameShape(u[..n], v[..n]) by {
        forall i | 0 <= i < n
          ensures (IsSpace(u[..n][i]) <==> IsSpace(v[..n][i])) && (!IsSpace(u[..n][i]) ==> u[..n][i] == v[..n][i])
        {
          assert u[..n][i] == u[i] && v[..n][i] == v[i];
        }
      }
      SameShapeTrimEnd(u[..n], v[..n]);
    }
  }

  lemma {:induction false} SameShapeStrip(u: string, v: string)
    requires SameShape(u, v)
    ensures SameShape(Strip(u), Strip(v))
  {
    SameShapeTrimStart(u, v);
    SameShapeTrimEnd(TrimStart(u), TrimStart(v));
  }

  lemma {:induction false} NonSpaceConcat(u: string, v: string)
    ensures NonSpace(u + v) == NonSpace(u) + NonSpace(v)
    decreases |u|
  {
    if u == [] {
      assert u + v == v;
    } else {
      assert (u + v)[1..] == u[1..] + v;
      NonSpaceConcat(u[1..], v);
    }
  }

  lemma {:induction false} NonSpaceTrimStart(s: string)
    ensures NonSpace(TrimStart(s)) == NonSpace(s)
    decreases |s|
  {
    if |s| > 0 && IsSpace(s[0]) {
      NonSpaceTrimStart(s[1..]);
    }
  }

  lemma {:induction false} NonSpaceSameShape(u: string, v: string)
    requires SameShape(u, v)
    ensures NonSpace(u) == NonSpace(v)
    decreases |u|
  {
    if u != [] {
      assert SameShape(u[1..], v[1..]) by {
        forall i | 0 <= i < |u| - 1
          ensures (IsSpace(u[1..][i]) <==> IsSpace(v[1..][i])) && (!IsSpace(u[1..][i]) ==> u[1..][i] == v[1..][i])
        {
          assert u[1..][i] == u[i + 1] && v[1..][i] == v[i + 1];
        }
      }
      NonSpaceSameShape(u[1..], v[1..]);
    }
  }
}
