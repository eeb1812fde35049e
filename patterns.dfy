/** The text recognisers the formatter uses to classify paragraphs, written out
    by hand for the regular expressions of app/services/formatter.py, together
    with the fixed heading names, the bibliography and contents markers, and the
    decimal numbers printed into captions. */
module Patterns {
  import opened Strings

  /** The seven section names of `_format_headings`, `_format_main_text` and
      `_format_paragraphs`. */
  const SectionNames: seq<string> :=
    ["ВВЕДЕНИЕ", "ЗАКЛЮЧЕНИЕ", "СПИСОК ИСПОЛЬЗОВАННЫХ ИСТОЧНИКОВ",
     "СОДЕРЖАНИЕ", "ОГЛАВЛЕНИЕ", "АННОТАЦИЯ", "РЕФЕРАТ"]

  /** The three section names `_generate_toc` lists in the table of contents. */
  const TocSectionNames: seq<string> :=
    ["ВВЕДЕНИЕ", "ЗАКЛЮЧЕНИЕ", "СПИСОК ИСПОЛЬЗОВАННЫХ ИСТОЧНИКОВ"]

  const EnDash: char := '\U{2013}'

  /** Length of the longest all-digit prefix: how far a leading `\d+` reaches. */
  function LeadingDigits(s: string): (n: nat)
    ensures n <= |s| && AllDigits(s[..n])
    ensures n < |s| ==> !IsDigit(s[n])
  {
    if |s| > 0 && IsDigit(s[0]) then
      var m := LeadingDigits(s[1..]);
      assert s[..m + 1] == [s[0]] + s[1..][..m];
      m + 1
    else 0
  }

  /** The only digit-prefix length followed by a non-digit is LeadingDigits. */
  lemma {:induction false} LeadingDigitsUnique(s: string, m: nat)
    requires m <= |s| && AllDigits(s[..m]) && (m < |s| ==> !IsDigit(s[m]))
    ensures m == LeadingDigits(s)
  {
    var n := LeadingDigits(s);
    DigitInPrefix(s, m, n);
    DigitInPrefix(s, n, m);
  }

  lemma {:induction false} DigitInPrefix(s: string, m: nat, k: nat)
    requires m <= |s| && AllDigits(s[..m])
    ensures k < m ==> IsDigit(s[k])
  {
    if k < m {
      assert s[..m][k] == s[k];
    }
  }

  /** `re.match(r'^\d+' + re.escape(c) + r'\s', t)`. */
  predicate DigitsThenSpace(t: string, c: char) {
    var n := LeadingDigits(t);
    n >= 1 && n + 1 < |t| && t[n] == c && IsSpace(t[n + 1])
  }

  /** `re.match('^[' + lo + '-' + hi + ']' + re.escape(c) + r'\s', t.lower())`,
      which only looks at the first three characters of the lower-cased text. */
  predicate RangeThenSpace(t: string, lo: char, hi: char, c: char) {
    |t| >= 3 && lo <= LowerChar(t[0]) <= hi && LowerChar(t[1]) == c && IsSpace(LowerChar(t[2]))
  }

  /** `_is_list_item`: the six alternatives of formatter.py:144-149, the last
      four on the lower-cased text. */
  predicate IsListItem(text: string) {
    DigitsThenSpace(text, '.') ||
    DigitsThenSpace(text, ')') ||
    RangeThenSpace(text, 'а', 'я', '.') ||
    RangeThenSpace(text, 'а', 'я', ')') ||
    RangeThenSpace(text, 'a', 'z', '.') ||
    RangeThenSpace(text, 'a', 'z', ')')
  }

  /** A letter that may open a lettered list item, in either case; `ё` and
      `Ё` are not among them, since `[а-я]` stops at U+044F. */
  predicate IsListLetter(c: char) {
    'a' <= c <= 'z' || 'A' <= c <= 'Z' || 'а' <= c <= 'я' || 'А' <= c <= 'Я'
  }

  /** The marker that closes a list number or letter. */
  predicate IsListCloser(c: char) {
    c == '.' || c == ')'
  }

  /** `_is_list_item` described without regular expressions: one or more
      digits, or exactly one Latin or Cyrillic letter of either case, then `.`
      or `)`, then a whitespace character. */
  lemma {:induction false} IsListItemMeaning(t: string)
    ensures IsListItem(t) <==>
      (exists n :: 1 <= n && n + 1 < |t| && AllDigits(t[..n]) && IsListCloser(t[n]) && IsSpace(t[n + 1])) ||
      (|t| >= 3 && IsListLetter(t[0]) && IsListCloser(t[1]) && IsSpace(t[2]))
  {
    NumberedItemMeaning(t);
    LetteredItemMeaning(t);
  }

  /** The two numbered alternatives: digits, a closer, a whitespace. */
  lemma {:induction false} NumberedItemMeaning(t: string)
    ensures (DigitsThenSpace(t, '.') || DigitsThenSpace(t, ')')) <==>
      exists n :: 1 <= n && n + 1 < |t| && AllDigits(t[..n]) && IsListCloser(t[n]) && IsSpace(t[n + 1])
  {
    var n := LeadingDigits(t);
    if n >= 1 && n + 1 < |t| && IsListCloser(t[n]) && IsSpace(t[n + 1]) {
      assert AllDigits(t[..n]);
    }
    if exists m :: 1 <= m && m + 1 < |t| && AllDigits(t[..m]) && IsListCloser(t[m]) && IsSpace(t[m + 1]) {
      var m :| 1 <= m && m + 1 < |t| && AllDigits(t[..m]) && IsListCloser(t[m]) && IsSpace(t[m + 1]);
      LeadingDigitsUnique(t, m);
    }
  }

  /** The four lettered alternatives: one letter of either case, a closer,
      a whitespace. */
  lemma {:induction false} LetteredItemMeaning(t: string)
    ensures (RangeThenSpace(t, 'а', 'я', '.') || RangeThenSpace(t, 'а', 'я', ')') ||
             RangeThenSpace(t, 'a', 'z', '.') || RangeThenSpace(t, 'a', 'z', ')')) <==>
      (|t| >= 3 && IsListLetter(t[0]) && IsListCloser(t[1]) && IsSpace(t[2]))
  {
    if |t| >= 3 {
      LowerOfListLetter(t[0]);
      LowerOfCloser(t[1]);
      CaseMapKeepsSpaces(t[2]);
    }
  }

  lemma {:induction false} LowerOfListLetter(c: char)
    ensures ('а' <= LowerChar(c) <= 'я' || 'a' <= LowerChar(c) <= 'z') <==> IsListLetter(c)
  {
  }

  lemma {:induction false} LowerOfCloser(c: char)
    ensures LowerChar(c) == '.' <==> c == '.'
    ensures LowerChar(c) == ')' <==> c == ')'
  {
  }

  /** `re.match(r'^\d+\.\d+', t)`: a subsection number such as `1.1`. */
  predicate StartsSubsection(t: string) {
    var n := LeadingDigits(t);
    n >= 1 && n + 1 < |t| && t[n] == '.' && IsDigit(t[n + 1])
  }

  /** `re.match(r'^\d+\.', t)`: a number followed by a dot. */
  predicate StartsNumbered(t: string) {
    var n := LeadingDigits(t);
    n >= 1 && n < |t| && t[n] == '.'
  }

  /** `re.match('^' + word + r' \d+ –', t)`. */
  predicate StartsNumberedLabel(t: string, word: string) {
    StartsWith(t, word + " ") &&
    var rest := t[|word| + 1..];
    var n := LeadingDigits(rest);
    n >= 1 && n + 2 <= |rest| && rest[n] == ' ' && rest[n + 1] == EnDash
  }

  /** `re.match(r'^Таблица \d+ –', t)`. */
  predicate StartsTableCaption(t: string) {
    StartsNumberedLabel(t, "Таблица")
  }

  /** `re.match(r'^Рисунок \d+ –', t)`. */
  predicate StartsFigureCaption(t: string) {
    StartsNumberedLabel(t, "Рисунок")
  }

  /** The test of `_format_bibliography`, on the stripped upper-cased text. */
  predicate HasBibliographyMarker(t: string) {
    Contains(t, "СПИСОК ИСПОЛЬЗОВАННЫХ ИСТОЧНИКОВ") || Contains(t, "БИБЛИОГРАФИЧЕСКИЙ СПИСОК")
  }

  /** The test of `_generate_toc` for an existing contents heading, on the
      upper-cased text. */
  predicate HasContentsMarker(t: string) {
    Contains(t, "СОДЕРЖАНИЕ") || Contains(t, "ОГЛАВЛЕНИЕ")
  }

  /** A stripped paragraph text that `_generate_toc` lists as a heading. */
  predicate IsTocHeading(t: string) {
    Upper(t) in TocSectionNames || StartsNumbered(t)
  }

  function DigitChar(d: nat): (c: char)
    requires d < 10
    ensures IsDigit(c)
  {
    ('0' as int + d) as char
  }

  function DigitValue(c: char): nat
    requires IsDigit(c)
  {
    c as int - '0' as int
  }

  /** Python's `str(n)` for a natural number. */
  function DecimalString(n: nat): (s: string)
    ensures |s| >= 1 && AllDigits(s)
    ensures n > 0 ==> s[0] != '0'
  {
    if n < 10 then [DigitChar(n)] else DecimalString(n / 10) + [DigitChar(n % 10)]
  }

  /** The number a string of decimal digits denotes. */
  function DigitsValue(s: string): nat
    requires AllDigits(s)
  {
    if s == [] then 0
    else
      assert AllDigits(s[..|s| - 1]);
      10 * DigitsValue(s[..|s| - 1]) + DigitValue(s[|s| - 1])
  }

  /** Reading back a printed number gives the number. */
  lemma {:induction false} DecimalStringRoundTrip(n: nat)
    ensures DigitsValue(DecimalString(n)) == n
  {
    var s := DecimalString(n);
    if n >= 10 {
      DecimalStringRoundTrip(n / 10);
      assert s[..|s| - 1] == DecimalString(n / 10);
    }
  }

  /** Distinct numbers print differently. */
  lemma {:induction false} DecimalStringInjective(m: nat, n: nat)
    requires DecimalString(m) == DecimalString(n)
    ensures m == n
  {
    DecimalStringRoundTrip(m);
    DecimalStringRoundTrip(n);
  }
}
