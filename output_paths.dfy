/** The output file name of `format_document` (formatter.py:33-35): when no
    output path is given, `base + "_formatted" + ext`, where `base` and `ext`
    come from `os.path.splitext` on a POSIX system. */
module OutputPaths {
  import opened Strings
  import opened DocModel

  /** `s.rfind(c)`: the index of the last c in s, or -1. */
  function LastIndexOf(s: string, c: char): (r: int)
    ensures -1 <= r < |s|
    ensures r >= 0 ==> s[r] == c
    ensures forall i :: r < i < |s| ==> s[i] != c
  {
    if s == [] then -1
    else if s[|s| - 1] == c then |s| - 1
    else LastIndexOf(s[..|s| - 1], c)
  }

  /** Where `posixpath.splitext` cuts p: at the last dot, when it lies in the
      final path component and is not part of that component's leading dots;
      otherwise at the end (no extension). */
  function ExtensionStart(p: string): nat {
    var sepIndex := LastIndexOf(p, '/');
    var dotIndex := LastIndexOf(p, '.');
    if dotIndex > sepIndex && exists i :: sepIndex + 1 <= i < dotIndex && p[i] != '.' then dotIndex
    else |p|
  }

  /** `os.path.splitext(p)` as (root, ext): there is an extension exactly
      when a character other than a dot stands between the last `/` and the
      last dot, and it then starts at that last dot. */
  function SplitExt(p: string): (r: (string, string))
    ensures r.0 + r.1 == p
    ensures r.1 == [] || (r.1[0] == '.' && '/' !in r.1 && '.' !in r.1[1..])
    ensures r.1 != [] <==> exists i :: LastIndexOf(p, '/') < i < LastIndexOf(p, '.') && p[i] != '.'
    ensures r.1 != [] ==> |r.0| == LastIndexOf(p, '.')
  {
    var k := ExtensionStart(p);
    assert p == p[..k] + p[k..];
    assert forall i :: 0 <= i < |p[k..]| ==> p[k..][i] == p[k + i];
    (p[..k], p[k..])
  }

  function DefaultOutputPath(inputFile: string): string {
    var (base, ext) := SplitExt(inputFile);
    base + "_formatted" + ext
  }

  /** `if not output_file`: a missing or empty output path means the default. */
  function OutputPath(inputFile: string, outputFile: Option<string>): string {
    if outputFile.None? || outputFile.value == "" then DefaultOutputPath(inputFile)
    else outputFile.value
  }

  lemma {:induction false} LastIndexOfConcat(a: string, b: string, c: char)
    ensures LastIndexOf(a + b, c) == if LastIndexOf(b, c) >= 0 then |a| + LastIndexOf(b, c) else LastIndexOf(a, c)
  {
    var r := LastIndexOf(a + b, c);
    var rb := LastIndexOf(b, c);
    var ra := LastIndexOf(a, c);
    var want := if rb >= 0 then |a| + rb else ra;
    assert want >= 0 ==> (a + b)[want] == c;
    assert forall i :: want < i < |a + b| ==> (a + b)[i] != c by {
      forall i | want < i < |a + b| ensures (a + b)[i] != c {
        if i >= |a| {
          assert (a + b)[i] == b[i - |a|];
        } else {
          assert (a + b)[i] == a[i];
        }
      }
    }
    LastIndexOfUnique(a + b, c, want);
  }

  /** The last occurrence is the only index with c and no c after it. */
  lemma {:induction false} LastIndexOfUnique(s: string, c: char, k: int)
    requires -1 <= k < |s| && (k >= 0 ==> s[k] == c) && forall i :: k < i < |s| ==> s[i] != c
    ensures LastIndexOf(s, c) == k
  {
  }

  /** Where the separators and dots of `base + "_formatted" + ext` are, for the
      parts of a split input. */
  lemma {:induction false} DefaultOutputPathMarks(base: string, ext: string)
    requires ext == [] || (ext[0] == '.' && '/' !in ext && '.' !in ext[1..])
    ensures LastIndexOf(base + "_formatted" + ext, '/') == LastIndexOf(base, '/')
    ensures LastIndexOf(base + "_formatted" + ext, '.') ==
      if ext == [] then LastIndexOf(base, '.') else |base| + 10
  {
    var mid := base + "_formatted";
    LastIndexOfConcat(base, "_formatted", '/');
    LastIndexOfConcat(base, "_formatted", '.');
    LastIndexOfUnique("_formatted", '/', -1);
    LastIndexOfUnique("_formatted", '.', -1);
    LastIndexOfConcat(mid, ext, '/');
    LastIndexOfConcat(mid, ext, '.');
    LastIndexOfUnique(ext, '/', -1);
    if ext == [] {
      LastIndexOfUnique(ext, '.', -1);
    } else {
      LastIndexOfUnique(ext, '.', 0);
    }
  }

  /** An input without an extension: `_formatted` is appended and the result
      has no extension either. */
  lemma {:induction false} DefaultOutputPathSplitsPlain(inputFile: string)
    requires SplitExt(inputFile).1 == []
    ensures SplitExt(DefaultOutputPath(inputFile)) == (inputFile + "_formatted", [])
  {
    var base := SplitExt(inputFile).0;
    assert base == inputFile;
    var out := DefaultOutputPath(inputFile);
    assert out == inputFile + "_formatted" + [];
    DefaultOutputPathMarks(base, []);
  }

  /** An input with an extension: `_formatted` goes in front of it. */
  lemma {:induction false} DefaultOutputPathSplitsExt(inputFile: string)
    requires SplitExt(inputFile).1 != []
    ensures var (base, ext) := SplitExt(inputFile);
            SplitExt(DefaultOutputPath(inputFile)) == (base + "_formatted", ext)
  {
    var (base, ext) := SplitExt(inputFile);
    var out := DefaultOutputPath(inputFile);
    var mid := base + "_formatted";
    assert out == mid + ext;
    DefaultOutputPathMarks(base, ext);
    assert out[|mid| - 1] == 'd' && LastIndexOf(out, '/') < |base| <= |mid| - 1;
    assert ExtensionStart(out) == |mid|;
    assert out[..|mid|] == mid && out[|mid|..] == ext;
  }

  /** The default output keeps the input's extension and directory: splitting
      it again gives the input's root with `_formatted` appended, and the same
      extension. */
  lemma {:induction false} DefaultOutputPathSplits(inputFile: string)
    ensures var (base, ext) := SplitExt(inputFile);
            SplitExt(DefaultOutputPath(inputFile)) == (base + "_formatted", ext)
  {
    if SplitExt(inputFile).1 == [] {
      DefaultOutputPathSplitsPlain(inputFile);
    } else {
      DefaultOutputPathSplitsExt(inputFile);
    }
  }

  lemma {:induction false} DefaultOutputPathExample()
    ensures DefaultOutputPath("a/r.docx") == "a/r_formatted.docx"
  {
    var p := "a/r.docx";
    LastIndexOfUnique(p, '/', 1);
    LastIndexOfUnique(p, '.', 3);
    assert p[2] != '.';
    assert ExtensionStart(p) == 3;
  }

  /** A path without an extension, or a dot file such as `.env`, gets
      `_formatted` at its end. */
  lemma {:induction false} DefaultOutputPathNoExtension()
    ensures DefaultOutputPath("dir.d/report") == "dir.d/report_formatted"
    ensures DefaultOutputPath(".env") == ".env_formatted"
  {
    DotInDirectory();
    PathWithoutExtension("dir.d/report");
    DotFile();
    PathWithoutExtension(".env");
  }

  lemma {:induction false} PathWithoutExtension(p: string)
    requires ExtensionStart(p) == |p|
    ensures DefaultOutputPath(p) == p + "_formatted"
  {
    assert p[..|p|] == p && p[|p|..] == [];
  }

  /** A dot before the last `/` does not start an extension. */
  lemma {:induction false} DotInDirectory()
    ensures ExtensionStart("dir.d/report") == 12
  {
    LastIndexOfUnique("dir.d/report", '/', 5);
    LastIndexOfUnique("dir.d/report", '.', 3);
  }

  /** Nor do the leading dots of the final component. */
  lemma {:induction false} DotFile()
    ensures ExtensionStart(".env") == 4
  {
    LastIndexOfUnique(".env", '/', -1);
    LastIndexOfUnique(".env", '.', 0);
  }

  /** A non-empty output path is used as given. */
  lemma {:induction false} OutputPathGiven(inputFile: string, outputFile: string)
    requires outputFile != ""
    ensures OutputPath(inputFile, Some(outputFile)) == outputFile
    ensures OutputPath(inputFile, Some("")) == OutputPath(inputFile, None)
  {
  }
}
