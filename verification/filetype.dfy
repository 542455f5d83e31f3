/**
 Extension matching (`check_filetype`, unbmp.py). Whether a name is a
 directory is a live filesystem query; here it is the oracle `isDir`, asked
 about the name exactly as given.
 */
module FileType {
  import opened PyStrings

  /** `os.path.isdir`, as an uninterpreted predicate on path names. */
  type DirOracle = string -> bool

  /**
   The reference reading of "`name` has extension `ext`": there is a `.`
   right before the last `|ext|` characters, and those characters equal
   `ext` up to ASCII case.
   */
  predicate HasExtension(name: string, ext: string) {
    && |name| > |ext|
    && name[|name| - |ext| - 1] == '.'
    && forall i :: 0 <= i < |ext| ==> LowerChar(name[|name| - |ext| + i]) == LowerChar(ext[i])
  }

  /** The comparison on line 27: the last `|ext| + 1` characters against `"." + ext`, lower-cased. */
  predicate SuffixMatches(name: string, ext: string) {
    Lower(Tail(name, |ext| + 1)) == "." + Lower(ext)
  }

  /** The lower-cased trailing slice equals `"." + ext` lower-cased exactly when the name has the extension. */
  lemma SuffixMatchesIsHasExtension(name: string, ext: string)
    ensures SuffixMatches(name, ext) <==> HasExtension(name, ext)
  {
    var t := Tail(name, |ext| + 1);
    var dot := "." + Lower(ext);
    if |name| > |ext| {
      assert |t| == |dot|;
      if SuffixMatches(name, ext) {
        assert Lower(t)[0] == dot[0];
        LowerCharOfNonLetter(t[0], '.');
        forall i | 0 <= i < |ext|
          ensures LowerChar(name[|name| - |ext| + i]) == LowerChar(ext[i])
        {
          assert Lower(t)[i + 1] == dot[i + 1];
        }
      }
      if HasExtension(name, ext) {
        forall i | 0 <= i < |t| ensures Lower(t)[i] == dot[i] {
          if i > 0 {
            assert t[i] == name[|name| - |ext| + (i - 1)];
          }
        }
      }
    } else {
      assert |Lower(t)| != |dot|;
    }
  }

  /**
   `check_filetype(fname, ftype)`: false for a directory, false when the name
   is shorter than the extension, otherwise the trailing-slice comparison.
   */
  function CheckFiletype(isDir: DirOracle, fname: string, ftype: string): (r: bool)
    ensures r <==> !isDir(fname) && HasExtension(fname, ftype)
  {
    SuffixMatchesIsHasExtension(fname, ftype);
    if isDir(fname) then false
    else if |fname| < |ftype| then false
    else SuffixMatches(fname, ftype)
  }

  /**
   The length guard on line 25 never decides anything on its own: without it
   the trailing-slice comparison gives the same answer.
   */
  lemma LengthGuardRedundant(isDir: DirOracle, fname: string, ftype: string)
    ensures CheckFiletype(isDir, fname, ftype) == (!isDir(fname) && SuffixMatches(fname, ftype))
  {
    SuffixMatchesIsHasExtension(fname, ftype);
  }

  /** Strings equal up to case have the same length and agree, up to case, at every position. */
  lemma SameIgnoringCaseAt(s: string, s': string, i: nat)
    requires SameIgnoringCase(s, s') && i < |s|
    ensures |s'| == |s| && LowerChar(s[i]) == LowerChar(s'[i])
  {
    assert |s| == |Lower(s)| == |s'|;
    assert Lower(s)[i] == Lower(s')[i];
  }

  /** Having an extension carries over to any re-casing of the name and of the extension. */
  lemma HasExtensionTransfers(name: string, name': string, ext: string, ext': string)
    requires SameIgnoringCase(name, name') && SameIgnoringCase(ext, ext')
    requires HasExtension(name, ext)
    ensures HasExtension(name', ext')
  {
    assert |name| == |Lower(name)| == |name'|;
    assert |ext| == |Lower(ext)| == |ext'|;
    var k := |name| - |ext| - 1;
    SameIgnoringCaseAt(name, name', k);
    LowerCharOfNonLetter(name'[k], '.');
    forall i | 0 <= i < |ext'|
      ensures LowerChar(name'[|name'| - |ext'| + i]) == LowerChar(ext'[i])
    {
      SameIgnoringCaseAt(name, name', |name| - |ext| + i);
      SameIgnoringCaseAt(ext, ext', i);
    }
  }

  /** The pure part of the match depends on the two strings only up to ASCII case. */
  lemma HasExtensionIgnoresCase(name: string, name': string, ext: string, ext': string)
    requires SameIgnoringCase(name, name') && SameIgnoringCase(ext, ext')
    ensures HasExtension(name, ext) == HasExtension(name', ext')
  {
    if HasExtension(name, ext) {
      HasExtensionTransfers(name, name', ext, ext');
    }
    if HasExtension(name', ext') {
      HasExtensionTransfers(name', name, ext', ext);
    }
  }

  /**
   Case-insensitivity in both arguments independently: any re-casing of the
   name and of the extension gives the same verdict, provided the directory
   oracle answers the same for both spellings of the name (it is asked
   about the name as given).
   */
  lemma CheckFiletypeIgnoresCase(isDir: DirOracle, name: string, name': string, ext: string, ext': string)
    requires SameIgnoringCase(name, name') && SameIgnoringCase(ext, ext')
    requires isDir(name) == isDir(name')
    ensures CheckFiletype(isDir, name, ext) == CheckFiletype(isDir, name', ext')
  {
    HasExtensionIgnoresCase(name, name', ext, ext');
  }

  /**
   The upper- and lower-cased forms of name and extension, in every
   combination, all get the verdict of the original spelling.
   */
  lemma CheckFiletypeCaseVariants(isDir: DirOracle, name: string, ext: string)
    requires isDir(Upper(name)) == isDir(name) == isDir(Lower(name))
    ensures CheckFiletype(isDir, Lower(name), ext) == CheckFiletype(isDir, name, ext)
    ensures CheckFiletype(isDir, Lower(name), Lower(ext)) == CheckFiletype(isDir, name, ext)
    ensures CheckFiletype(isDir, Lower(name), Upper(ext)) == CheckFiletype(isDir, name, ext)
    ensures CheckFiletype(isDir, Upper(name), ext) == CheckFiletype(isDir, name, ext)
    ensures CheckFiletype(isDir, Upper(name), Lower(ext)) == CheckFiletype(isDir, name, ext)
    ensures CheckFiletype(isDir, Upper(name), Upper(ext)) == CheckFiletype(isDir, name, ext)
    ensures CheckFiletype(isDir, name, Lower(ext)) == CheckFiletype(isDir, name, ext)
    ensures CheckFiletype(isDir, name, Upper(ext)) == CheckFiletype(isDir, name, ext)
  {
    CaseVariants(name);
    CaseVariants(ext);
    CheckFiletypeIgnoresCase(isDir, Lower(name), name, ext, ext);
    CheckFiletypeIgnoresCase(isDir, Lower(name), name, Lower(ext), ext);
    CheckFiletypeIgnoresCase(isDir, Lower(name), name, Upper(ext), ext);
    CheckFiletypeIgnoresCase(isDir, Upper(name), name, ext, ext);
    CheckFiletypeIgnoresCase(isDir, Upper(name), name, Lower(ext), ext);
    CheckFiletypeIgnoresCase(isDir, Upper(name), name, Upper(ext), ext);
    CheckFiletypeIgnoresCase(isDir, name, name, Lower(ext), ext);
    CheckFiletypeIgnoresCase(isDir, name, name, Upper(ext), ext);
  }

  /**
   The malformed names are rejected: a name no longer than the extension,
   a name whose character before the extension-length suffix is not a dot,
   and a name ending in a dot when the extension is non-empty and does not
   itself end in one.
   */
  lemma RejectsMalformedNames(isDir: DirOracle, name: string, ext: string)
    ensures |name| <= |ext| ==> !CheckFiletype(isDir, name, ext)
    ensures |name| > |ext| && name[|name| - |ext| - 1] != '.' ==> !CheckFiletype(isDir, name, ext)
    ensures (|name| > 0 && name[|name| - 1] == '.' && |ext| > 0 && ext[|ext| - 1] != '.') ==>
              !CheckFiletype(isDir, name, ext)
  {
    if |name| > 0 && name[|name| - 1] == '.' && |ext| > 0 && ext[|ext| - 1] != '.' && HasExtension(name, ext) {
      assert LowerChar(name[|name| - |ext| + (|ext| - 1)]) == LowerChar(ext[|ext| - 1]);
      LowerCharOfNonLetter(ext[|ext| - 1], '.');
    }
  }

  /** A name of the repository's own test, in two spellings, is accepted (test_unbmp.py). */
  lemma CheckFiletypeAcceptsExamples(isDir: DirOracle)
    requires !isDir("abcABC123.bMp") && !isDir("ABCABC123.BMP")
    ensures CheckFiletype(isDir, "abcABC123.bMp", "bmP")
    ensures CheckFiletype(isDir, "ABCABC123.BMP", "bmp")
  {
    var a, b := "abcABC123.bMp", "ABCABC123.BMP";
    assert a[9] == '.' && a[10] == 'b' && a[11] == 'M' && a[12] == 'p';
    assert b[9] == '.' && b[10] == 'B' && b[11] == 'M' && b[12] == 'P';
    var e, f := "bmP", "bmp";
    assert e[0] == 'b' && e[1] == 'm' && e[2] == 'P';
    assert f[0] == 'b' && f[1] == 'm' && f[2] == 'p';
    assert HasExtension(a, e);
    assert HasExtension(b, f);
  }

  /** The malformed names of the repository's own test are rejected (test_unbmp.py). */
  lemma CheckFiletypeRejectsExamples(isDir: DirOracle)
    ensures !CheckFiletype(isDir, "abcABC123bMp", "bmP")
    ensures !CheckFiletype(isDir, "abcABC123bMp.", "BMP")
  {
    RejectsMalformedNames(isDir, "abcABC123bMp", "bmP");
    RejectsMalformedNames(isDir, "abcABC123bMp.", "BMP");
  }
}
