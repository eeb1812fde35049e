/** `is_valid_document` of app/utils/file_manager.py: a file name is accepted
    when its lower-cased form ends with one of the allowed extensions of
    app/config/settings.py. */
module FileManager {
  import opened Strings

  /** `ALLOWED_EXTENSIONS` (settings.py:22). */
  const AllowedExtensions: seq<string> := [".docx", ".doc"]

  /** `any(s.endswith(ext) for ext in exts)`. */
  predicate EndsWithAny(s: string, exts: seq<string>) {
    exts != [] && (EndsWith(s, exts[0]) || EndsWithAny(s, exts[1..]))
  }

  predicate IsValidDocument(filename: string) {
    EndsWithAny(Lower(filename), AllowedExtensions)
  }

  /** c is the character want, or its ASCII capital when want is a small
      Latin letter. */
  predicate MatchesIgnoringCase(c: char, want: char) {
    c == want || ('a' <= want <= 'z' && c as int == want as int - 32)
  }

  /** s ends with suffix, ASCII letters compared without regard to case. */
  predicate EndsWithIgnoringCase(s: string, suffix: string) {
    |suffix| <= |s| &&
    forall i :: 0 <= i < |suffix| ==> MatchesIgnoringCase(s[|s| - |suffix| + i], suffix[i])
  }

  lemma {:induction false} EndsWithAnyMeaning(s: string, exts: seq<string>)
    ensures EndsWithAny(s, exts) <==> exists k :: 0 <= k < |exts| && EndsWith(s, exts[k])
  {
    if exts != [] {
      EndsWithAnyMeaning(s, exts[1..]);
      if exists k :: 0 <= k < |exts| && EndsWith(s, exts[k]) {
        var k :| 0 <= k < |exts| && EndsWith(s, exts[k]);
        if k > 0 {
          assert exts[1..][k - 1] == exts[k];
        }
      }
      if EndsWithAny(s, exts[1..]) {
        var k :| 0 <= k < |exts[1..]| && EndsWith(s, exts[1..][k]);
        assert exts[k + 1] == exts[1..][k];
      }
    }
  }

  /** The only characters the case map lowers to `.` or to a small Latin
      letter are that character and its ASCII capital. */
  lemma {:induction false} LowerCharIsAscii(c: char, want: char)
    requires want == '.' || 'a' <= want <= 'z'
    ensures LowerChar(c) == want <==> MatchesIgnoringCase(c, want)
  {
  }

  lemma {:induction false} LowerEndsWith(s: string, suffix: string)
    requires forall i :: 0 <= i < |suffix| ==> suffix[i] == '.' || 'a' <= suffix[i] <= 'z'
    ensures EndsWith(Lower(s), suffix) <==> EndsWithIgnoringCase(s, suffix)
  {
    if |suffix| <= |s| {
      var t := Lower(s)[|s| - |suffix|..];
      forall i | 0 <= i < |suffix|
        ensures t[i] == suffix[i] <==> MatchesIgnoringCase(s[|s| - |suffix| + i], suffix[i])
      {
        LowerCharIsAscii(s[|s| - |suffix| + i], suffix[i]);
      }
      if EndsWithIgnoringCase(s, suffix) {
        assert t == suffix;
      }
    }
  }

  /** A name is accepted exactly when it ends in `.docx` or `.doc`, letters
      in any case. */
  lemma {:induction false} IsValidDocumentMeaning(filename: string)
    ensures IsValidDocument(filename) <==>
      EndsWithIgnoringCase(filename, ".docx") || EndsWithIgnoringCase(filename, ".doc")
  {
    EndsWithAnyMeaning(Lower(filename), AllowedExtensions);
    LowerEndsWith(filename, ".docx");
    LowerEndsWith(filename, ".doc");
    assert AllowedExtensions[0] == ".docx" && AllowedExtensions[1] == ".doc";
  }

  /** Upper-casing a name does not change whether it is accepted. */
  lemma {:induction false} IsValidDocumentIgnoresCase(filename: string)
    ensures IsValidDocument(Upper(filename)) == IsValidDocument(filename)
  {
    LowerOfUpper(filename);
  }

  lemma {:induction false} LowerConcat(a: string, b: string)
    ensures Lower(a + b) == Lower(a) + Lower(b)
  {
    assert forall i :: 0 <= i < |a + b| ==> Lower(a + b)[i] == (Lower(a) + Lower(b))[i];
  }

  /** Only the suffix matters: anything may precede an accepted name. */
  lemma {:induction false} IsValidDocumentSuffix(prefix: string, filename: string)
    requires IsValidDocument(filename)
    ensures IsValidDocument(prefix + filename)
  {
    var l := Lower(filename);
    LowerConcat(prefix, filename);
    EndsWithAnyMeaning(l, AllowedExtensions);
    EndsWithAnyMeaning(Lower(prefix) + l, AllowedExtensions);
    var k :| 0 <= k < |AllowedExtensions| && EndsWith(l, AllowedExtensions[k]);
    var e := AllowedExtensions[k];
    assert (Lower(prefix) + l)[|Lower(prefix) + l| - |e|..] == l[|l| - |e|..];
  }

  /** Capital letters are accepted: `REPORT.DOCX`, and a bare `.doc`. */
  lemma {:induction false} IsValidDocumentAccepts()
    ensures IsValidDocument("REPORT.DOCX")
    ensures IsValidDocument(".doc")
  {
    var f := "REPORT.DOCX";
    assert f[6..] == ".DOCX";
    assert EndsWithIgnoringCase(f, ".docx");
    IsValidDocumentMeaning(f);
    assert EndsWithIgnoringCase(".doc", ".doc");
    IsValidDocumentMeaning(".doc");
  }

  /** The empty name and a name with a further extension are rejected. */
  lemma {:induction false} IsValidDocumentRejects()
    ensures !IsValidDocument("")
    ensures !IsValidDocument("x.docx.pdf")
  {
    IsValidDocumentMeaning("");
    var f := "x.docx.pdf";
    IsValidDocumentMeaning(f);
    assert !MatchesIgnoringCase(f[|f| - 5 + 4], ".docx"[4]);
    assert !MatchesIgnoringCase(f[|f| - 4 + 3], ".doc"[3]);
  }
}
