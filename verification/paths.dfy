/**
 Destination-path derivation (`get_conv_fname`) and directory joining
 (`concat_filename`), unbmp.py.
 */
module Paths {
  import opened Optional
  import opened PyStrings
  import opened FileType

  /** The characters `get_conv_fname` strips: a 3-letter extension and its dot. */
  const StripWidth: nat := 4

  predicate EndsWithSlash(s: string) {
    |s| > 0 && s[|s| - 1] == '/'
  }

  /** Indexing `path[-1]` fails on an empty string, so a given output directory must be non-empty. */
  predicate ValidOutputDir(outputDir: Option<string>) {
    outputDir.Some? ==> outputDir.value != ""
  }

  /**
   `concat_filename(path, fname)`: the directory, then exactly one `/`, then
   the name. The contract determines the result: it starts with `path`, ends
   with `fname`, has a `/` right before `fname`, and adds a character only
   when `path` lacks the trailing `/`.
   */
  function ConcatFilename(path: string, fname: string): (r: string)
    requires path != ""
    ensures |r| == |path| + |fname| + (if EndsWithSlash(path) then 0 else 1)
    ensures r[..|path|] == path
    ensures EndsWith(r, fname)
    ensures r[|r| - |fname| - 1] == '/'
  {
    if path[|path| - 1] != '/' then path + "/" + fname else path + fname
  }

  /** Joining ignores whether the directory already ends in `/`. */
  lemma ConcatIgnoresTrailingSlash(path: string, fname: string)
    requires path != "" && !EndsWithSlash(path)
    ensures ConcatFilename(path, fname) == ConcatFilename(path + "/", fname)
    ensures ConcatFilename(path, fname) == path + "/" + fname
  {
  }

  /**
   `get_conv_fname(fname, destExt, outputDir)`. Without an output directory:
   `fname` minus its last 4 characters, plus `"." + destExt`. With one: the
   output directory, a single `/`, then the last `/`-segment of `fname` minus
   its last 4 characters, plus `"." + destExt`.
   */
  function GetConvFname(fname: string, destExt: string, outputDir: Option<string>): (r: string)
    requires ValidOutputDir(outputDir)
    ensures EndsWith(r, "." + destExt)
    ensures outputDir.None? ==>
              |r| == |DropLast(fname, StripWidth)| + |destExt| + 1 && r[..|r| - |destExt| - 1] == fname[..|r| - |destExt| - 1]
    ensures outputDir.Some? ==> |r| > |outputDir.value| && r[..|outputDir.value|] == outputDir.value
  {
    match outputDir
    case None => DropLast(fname, StripWidth) + "." + destExt
    case Some(dir) =>
      var fnameWithoutPath := DropLast(LastSegment(fname), StripWidth) + "." + destExt;
      var dir' := if dir[|dir| - 1] != '/' then dir + "/" else dir;
      dir' + fnameWithoutPath
  }

  /**
   With an output directory, the result is the output directory joined (as
   `concat_filename` joins) with what the bare file name would convert to in
   place.
   */
  lemma ConvFnameIntoDirIsJoin(fname: string, destExt: string, dir: string)
    requires dir != ""
    ensures GetConvFname(fname, destExt, Some(dir)) == ConcatFilename(dir, GetConvFname(LastSegment(fname), destExt, None))
  {
    var name := DropLast(LastSegment(fname), StripWidth) + "." + destExt;
    assert GetConvFname(LastSegment(fname), destExt, None) == name;
    if EndsWithSlash(dir) {
      assert GetConvFname(fname, destExt, Some(dir)) == dir + name;
    } else {
      assert GetConvFname(fname, destExt, Some(dir)) == (dir + "/") + name;
      assert ConcatFilename(dir, name) == dir + "/" + name;
    }
  }

  /** An output directory with or without its trailing `/` gives the same destination. */
  lemma ConvFnameIgnoresTrailingSlash(fname: string, destExt: string, dir: string)
    requires dir != "" && !EndsWithSlash(dir)
    ensures GetConvFname(fname, destExt, Some(dir)) == GetConvFname(fname, destExt, Some(dir + "/"))
  {
    var name := GetConvFname(LastSegment(fname), destExt, None);
    ConvFnameIntoDirIsJoin(fname, destExt, dir);
    ConvFnameIntoDirIsJoin(fname, destExt, dir + "/");
    ConcatIgnoresTrailingSlash(dir, name);
  }

  /**
   Without an output directory the destination stays beside the source: the
   directory part of `fname` is kept, and the last segment is converted as a
   bare name would be, provided that segment is at least 4 characters long.
   */
  lemma ConvFnameKeepsDirectory(fname: string, destExt: string)
    requires |LastSegment(fname)| >= StripWidth
    ensures var prefix := fname[..|fname| - |LastSegment(fname)|];
            GetConvFname(fname, destExt, None) == prefix + GetConvFname(LastSegment(fname), destExt, None)
  {
    var seg := LastSegment(fname);
    var prefix := fname[..|fname| - |seg|];
    assert fname == prefix + seg;
    assert DropLast(fname, StripWidth) == prefix + DropLast(seg, StripWidth);
  }

  /**
   The fixed-width strip removes exactly the matched source extension and its
   dot when that extension has 3 characters, and something else otherwise
   (for a name of at least 4 characters).
   */
  lemma ConvFnameStripsExtensionIffThreeChars(fname: string, srcExt: string, destExt: string)
    requires HasExtension(fname, srcExt) && |fname| >= StripWidth
    ensures GetConvFname(fname, destExt, None) == fname[..|fname| - |srcExt| - 1] + "." + destExt
            <==> |srcExt| == 3
  {
    var r := GetConvFname(fname, destExt, None);
    var exact := fname[..|fname| - |srcExt| - 1] + "." + destExt;
    if |srcExt| != 3 {
      assert |r| != |exact|;
    }
  }

  /** The last segment of an example source path. */
  lemma LastSegmentOfTestPath()
    ensures LastSegment("/a/b/abcABC123.bmp") == "abcABC123.bmp"
  {
    var f := "/a/b/abcABC123.bmp";
    assert f[4] == '/';
    assert SegmentStart(f) == 5;
  }

  /** In-place destinations of a bare name and of a name with a directory part. */
  lemma ConvFnameInPlaceExamples()
    ensures GetConvFname("abcABC123.bmp", "png", None) == "abcABC123.png"
    ensures GetConvFname("/a/b/abcABC123.bmp", "png", None) == "/a/b/abcABC123.png"
  {
  }

  /** An output directory with and without its trailing `/` gives the same destination. */
  lemma ConvFnameIntoDirExamples()
    ensures GetConvFname("/a/b/abcABC123.bmp", "png", Some("/a/c/")) == "/a/c/abcABC123.png"
    ensures GetConvFname("/a/b/abcABC123.bmp", "png", Some("/a/c")) == "/a/c/abcABC123.png"
  {
    LastSegmentOfTestPath();
    assert DropLast("abcABC123.bmp", StripWidth) == "abcABC123";
    var name := "abcABC123" + "." + "png";
    assert GetConvFname("/a/b/abcABC123.bmp", "png", Some("/a/c/")) == "/a/c/" + name;
    assert GetConvFname("/a/b/abcABC123.bmp", "png", Some("/a/c")) == "/a/c" + "/" + name;
  }
}
