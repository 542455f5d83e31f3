/**
 Batch planning: the filtering half of `convert` and the directory scan of
 `find_images`, unbmp.py. Both are order-preserving filter-then-map passes
 over a sequence of names.
 */
module Planning {
  import opened Optional
  import opened PyStrings
  import opened FileType
  import opened Paths

  /** One planned conversion: the `(fname, conv_fname)` pair of `to_convert`. */
  datatype Task = Task(source: string, dest: string)

  /** The source extension used when none is given. */
  const DefaultSourceExt: string := "bmp"

  /** `src_ext`, or `"bmp"` when it is `None`. */
  function SourceExt(srcExt: Option<string>): (ext: string)
    ensures srcExt.None? ==> ext == DefaultSourceExt
    ensures srcExt.Some? ==> ext == srcExt.value
  {
    match srcExt
    case None => DefaultSourceExt
    case Some(e) => e
  }

  /** The task `convert` plans for a matching name. */
  function TaskFor(fname: string, destExt: string, outputDir: Option<string>): Task
    requires ValidOutputDir(outputDir)
  {
    Task(fname, GetConvFname(fname, destExt, outputDir))
  }

  /**
   The `to_convert` list of `convert`: every input that passes
   `check_filetype` against `ext`, paired with its destination, in input
   order. `PlannedTaskMatches` and `MatchingInputPlanned` give its contents
   both ways; `PlanAppend` its order.
   */
  function PlanConversions(isDir: DirOracle, files: seq<string>, destExt: string, ext: string,
                           outputDir: Option<string>): (plan: seq<Task>)
    requires ValidOutputDir(outputDir)
    ensures |plan| <= |files|
  {
    if files == [] then []
    else if CheckFiletype(isDir, files[0], ext) then
      [TaskFor(files[0], destExt, outputDir)] + PlanConversions(isDir, files[1..], destExt, ext, outputDir)
    else PlanConversions(isDir, files[1..], destExt, ext, outputDir)
  }

  /** Every planned task comes from a matching input and carries that input's destination. */
  lemma {:induction false} PlannedTaskMatches(isDir: DirOracle, files: seq<string>, destExt: string, ext: string,
                                              outputDir: Option<string>, t: Task)
    requires ValidOutputDir(outputDir)
    requires t in PlanConversions(isDir, files, destExt, ext, outputDir)
    ensures t.source in files && CheckFiletype(isDir, t.source, ext)
    ensures t.dest == GetConvFname(t.source, destExt, outputDir) && EndsWith(t.dest, "." + destExt)
  {
    if t != TaskFor(files[0], destExt, outputDir) || !CheckFiletype(isDir, files[0], ext) {
      PlannedTaskMatches(isDir, files[1..], destExt, ext, outputDir, t);
      assert t.source in files[1..];
    }
  }

  /** Every matching input is planned. */
  lemma {:induction false} MatchingInputPlanned(isDir: DirOracle, files: seq<string>, destExt: string, ext: string,
                                                outputDir: Option<string>, f: string)
    requires ValidOutputDir(outputDir)
    requires f in files && CheckFiletype(isDir, f, ext)
    ensures TaskFor(f, destExt, outputDir) in PlanConversions(isDir, files, destExt, ext, outputDir)
  {
    if f != files[0] {
      assert f in files[1..];
      MatchingInputPlanned(isDir, files[1..], destExt, ext, outputDir, f);
    }
  }

  /**
   Planning distributes over concatenation of the input: the plan of a list
   is the plan of its front followed by the plan of its back, so matches keep
   their input order and each name is planned on its own.
   */
  lemma {:induction false} PlanAppend(isDir: DirOracle, a: seq<string>, b: seq<string>, destExt: string, ext: string,
                                      outputDir: Option<string>)
    requires ValidOutputDir(outputDir)
    ensures PlanConversions(isDir, a + b, destExt, ext, outputDir)
            == PlanConversions(isDir, a, destExt, ext, outputDir) + PlanConversions(isDir, b, destExt, ext, outputDir)
  {
    if a == [] {
      assert a + b == b;
    } else {
      assert (a + b)[0] == a[0];
      assert (a + b)[1..] == a[1..] + b;
      PlanAppend(isDir, a[1..], b, destExt, ext, outputDir);
    }
  }

  /** Some input passes `check_filetype` against `ext`. */
  predicate AnyMatch(isDir: DirOracle, files: seq<string>, ext: string) {
    exists f :: f in files && CheckFiletype(isDir, f, ext)
  }

  /** The plan is non-empty exactly when some input matches, whatever the output directory. */
  lemma AnyMatchIffPlanned(isDir: DirOracle, files: seq<string>, destExt: string, ext: string,
                           outputDir: Option<string>)
    requires ValidOutputDir(outputDir)
    ensures AnyMatch(isDir, files, ext) <==> PlanConversions(isDir, files, destExt, ext, outputDir) != []
  {
    var plan := PlanConversions(isDir, files, destExt, ext, outputDir);
    if AnyMatch(isDir, files, ext) {
      var f :| f in files && CheckFiletype(isDir, f, ext);
      MatchingInputPlanned(isDir, files, destExt, ext, outputDir, f);
    }
    if plan != [] {
      PlannedTaskMatches(isDir, files, destExt, ext, outputDir, plan[0]);
    }
  }

  /** A single name is planned exactly when it matches. */
  lemma PlanSingle(isDir: DirOracle, f: string, destExt: string, ext: string, outputDir: Option<string>)
    requires ValidOutputDir(outputDir)
    ensures PlanConversions(isDir, [f], destExt, ext, outputDir)
            == if CheckFiletype(isDir, f, ext) then [TaskFor(f, destExt, outputDir)] else []
  {
    assert [f][1..] == [];
  }

  /**
   The full paths `find_images` collects: each listed entry that passes
   `check_filetype` (asked about the bare entry name), joined to the scanned
   directory, in listing order.
   */
  function ScanDirectory(isDir: DirOracle, directory: string, entries: seq<string>, ext: string): (paths: seq<string>)
    requires directory != ""
    ensures |paths| <= |entries|
  {
    if entries == [] then []
    else if CheckFiletype(isDir, entries[0], ext) then
      [ConcatFilename(directory, entries[0])] + ScanDirectory(isDir, directory, entries[1..], ext)
    else ScanDirectory(isDir, directory, entries[1..], ext)
  }

  /** Every matching entry is collected, joined to the directory. */
  lemma {:induction false} MatchingEntryCollected(isDir: DirOracle, directory: string, entries: seq<string>, ext: string,
                                                  n: string)
    requires directory != "" && n in entries && CheckFiletype(isDir, n, ext)
    ensures ConcatFilename(directory, n) in ScanDirectory(isDir, directory, entries, ext)
  {
    if n != entries[0] {
      assert n in entries[1..];
      MatchingEntryCollected(isDir, directory, entries[1..], ext, n);
    }
  }

  /** Every collected path is a matching entry joined to the directory. */
  lemma {:induction false} CollectedPathMatches(isDir: DirOracle, directory: string, entries: seq<string>, ext: string,
                                                p: string)
    requires directory != "" && p in ScanDirectory(isDir, directory, entries, ext)
    ensures exists n :: n in entries && CheckFiletype(isDir, n, ext) && p == ConcatFilename(directory, n)
  {
    if CheckFiletype(isDir, entries[0], ext) && p == ConcatFilename(directory, entries[0]) {
      assert entries[0] in entries;
    } else {
      CollectedPathMatches(isDir, directory, entries[1..], ext, p);
      var n :| n in entries[1..] && CheckFiletype(isDir, n, ext) && p == ConcatFilename(directory, n);
      assert n in entries;
    }
  }

  /** The scan finds nothing exactly when no entry matches. */
  lemma {:induction false} ScanEmptyIffNoMatch(isDir: DirOracle, directory: string, entries: seq<string>, ext: string)
    requires directory != ""
    ensures ScanDirectory(isDir, directory, entries, ext) == [] <==> forall n :: n in entries ==> !CheckFiletype(isDir, n, ext)
  {
    if entries != [] {
      ScanEmptyIffNoMatch(isDir, directory, entries[1..], ext);
      assert forall n :: n in entries ==> n == entries[0] || n in entries[1..];
      assert forall n :: n in entries[1..] ==> n in entries;
      assert entries[0] in entries;
    }
  }

  /** A name with the extension keeps it once joined under a directory. */
  lemma JoinKeepsExtension(directory: string, name: string, ext: string)
    requires directory != "" && HasExtension(name, ext)
    ensures HasExtension(ConcatFilename(directory, name), ext)
  {
    var p := ConcatFilename(directory, name);
    assert p[|p| - |name|..] == name;
    assert p[|p| - |ext| - 1] == name[|name| - |ext| - 1];
    forall i | 0 <= i < |ext| ensures LowerChar(p[|p| - |ext| + i]) == LowerChar(ext[i]) {
      assert p[|p| - |ext| + i] == name[|name| - |ext| + i];
    }
  }

  /**
   The reference plan of a directory scan: the entries whose bare name
   matches and whose joined path is not a directory either, each joined
   and paired with its destination.
   */
  function ScanPlanReference(isDir: DirOracle, directory: string, entries: seq<string>, destExt: string, ext: string,
                             outputDir: Option<string>): seq<Task>
    requires directory != "" && ValidOutputDir(outputDir)
  {
    if entries == [] then []
    else
      var rest := ScanPlanReference(isDir, directory, entries[1..], destExt, ext, outputDir);
      var path := ConcatFilename(directory, entries[0]);
      if CheckFiletype(isDir, entries[0], ext) && !isDir(path) then [TaskFor(path, destExt, outputDir)] + rest
      else rest
  }

  /**
   What `find_images` hands to `convert` gets planned as the reference scan
   plan: the filter inside `convert` re-checks each joined path, and that
   second check can only drop a path the directory oracle calls a directory.
   */
  lemma {:induction false} ScanThenPlan(isDir: DirOracle, directory: string, entries: seq<string>, destExt: string,
                                        ext: string, outputDir: Option<string>)
    requires directory != "" && ValidOutputDir(outputDir)
    ensures PlanConversions(isDir, ScanDirectory(isDir, directory, entries, ext), destExt, ext, outputDir)
            == ScanPlanReference(isDir, directory, entries, destExt, ext, outputDir)
  {
    if entries != [] {
      var rest := ScanDirectory(isDir, directory, entries[1..], ext);
      ScanThenPlan(isDir, directory, entries[1..], destExt, ext, outputDir);
      if CheckFiletype(isDir, entries[0], ext) {
        var path := ConcatFilename(directory, entries[0]);
        JoinKeepsExtension(directory, entries[0], ext);
        PlanAppend(isDir, [path], rest, destExt, ext, outputDir);
        PlanSingle(isDir, path, destExt, ext, outputDir);
      }
    }
  }
}
