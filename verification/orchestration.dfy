/**
 Executing a plan: the dry-run branch and the conversion loop of `convert`,
 and `find_images` driving `convert` over a directory listing, unbmp.py.
 The image codec is a parameter that reports one outcome per task; the
 directory listing is a parameter too.
 */
module Orchestration {
  import opened Optional
  import opened FileType
  import opened Paths
  import opened Planning

  /** What the codec reports for one task: success, `CorruptImageError`, or any other exception. */
  datatype CodecOutcome = Converted | CorruptImage | OtherError(message: string)

  /** The codec as a black box: decode the task's source, encode it in the given format at its destination. */
  type Codec = (Task, string) -> CodecOutcome

  /** The `-n` and `--verbose` flags, fixed for the whole run. */
  datatype RunConfig = RunConfig(dryRun: bool, verbose: bool)

  /** The loop's accounting: tasks processed, the `converted` counter, the `failed` list. */
  datatype BatchResult = BatchResult(processed: nat, converted: nat, failed: seq<string>)

  /** The closing verbose line: "all N images converted", or the processed/converted/failed counts. */
  datatype Summary = AllConverted(total: nat) | SomeFailed(processed: nat, converted: nat, failedCount: nat)

  /**
   What `convert` ends with: a dry-run preview (or "Nothing to change"), a
   real run's accounting with the closing verbose line (present exactly when
   `--verbose` is on), or the `IndexError` that `output_dir[-1]` raises on an
   empty output directory as soon as an input matches.
   */
  datatype Report =
    | NothingToChange
    | WouldModify(tasks: seq<Task>, count: nat)
    | Ran(result: BatchResult, summary: Option<Summary>)
    | OutputDirIndexError

  /** What `find_images` ends with: "Nothing Found", or the number of matched entries and `convert`'s report. */
  datatype ScanReport = NothingFound | Found(count: nat, report: Report)

  predicate Fails(codec: Codec, t: Task, destExt: string) {
    codec(t, destExt) != Converted
  }

  /**
   The reference for the `failed` list: the sources of the tasks the codec
   fails on, in plan order. Failures of either kind count.
   */
  function FailedSources(plan: seq<Task>, destExt: string, codec: Codec): (failed: seq<string>)
    ensures |failed| <= |plan|
  {
    if plan == [] then []
    else if Fails(codec, plan[0], destExt) then [plan[0].source] + FailedSources(plan[1..], destExt, codec)
    else FailedSources(plan[1..], destExt, codec)
  }

  /** A task the codec fails on has its source in the list, and every listed source belongs to such a task. */
  lemma {:induction false} FailedSourcesMembers(plan: seq<Task>, destExt: string, codec: Codec)
    ensures forall t :: t in plan && Fails(codec, t, destExt) ==> t.source in FailedSources(plan, destExt, codec)
    ensures forall s :: s in FailedSources(plan, destExt, codec) ==>
              exists t :: t in plan && Fails(codec, t, destExt) && t.source == s
  {
    if plan != [] {
      FailedSourcesMembers(plan[1..], destExt, codec);
      var rest := FailedSources(plan[1..], destExt, codec);
      assert forall t :: t in plan ==> t == plan[0] || t in plan[1..];
      assert forall t :: t in plan[1..] ==> t in plan;
      assert plan[0] in plan;
    }
  }

  /** The reference for the `converted` counter: the number of tasks the codec converts. */
  function CountConverted(plan: seq<Task>, destExt: string, codec: Codec): (n: nat)
    ensures n <= |plan|
  {
    if plan == [] then 0
    else if Fails(codec, plan[0], destExt) then CountConverted(plan[1..], destExt, codec)
    else 1 + CountConverted(plan[1..], destExt, codec)
  }

  /** Every task is converted exactly when nothing failed. */
  lemma {:induction false} AllConvertedIffNoneFailed(plan: seq<Task>, destExt: string, codec: Codec)
    ensures CountConverted(plan, destExt, codec) == |plan| <==> forall t :: t in plan ==> !Fails(codec, t, destExt)
    ensures FailedSources(plan, destExt, codec) == [] <==> forall t :: t in plan ==> !Fails(codec, t, destExt)
  {
    if plan != [] {
      AllConvertedIffNoneFailed(plan[1..], destExt, codec);
      assert forall t :: t in plan ==> t == plan[0] || t in plan[1..];
      assert forall t :: t in plan[1..] ==> t in plan;
      assert plan[0] in plan;
    }
  }

  /** Every task of the plan is accounted for exactly once: converted or failed. */
  lemma {:induction false} ConvertedPlusFailed(plan: seq<Task>, destExt: string, codec: Codec)
    ensures CountConverted(plan, destExt, codec) + |FailedSources(plan, destExt, codec)| == |plan|
  {
    if plan != [] {
      ConvertedPlusFailed(plan[1..], destExt, codec);
    }
  }

  /**
   Failure isolation: the accounting of a plan is the accounting of its front
   followed by that of its back, so nothing that happens to earlier tasks
   changes what is recorded for later ones.
   */
  lemma {:induction false} AccountingAppend(a: seq<Task>, b: seq<Task>, destExt: string, codec: Codec)
    ensures FailedSources(a + b, destExt, codec) == FailedSources(a, destExt, codec) + FailedSources(b, destExt, codec)
    ensures CountConverted(a + b, destExt, codec) == CountConverted(a, destExt, codec) + CountConverted(b, destExt, codec)
  {
    if a == [] {
      assert a + b == b;
    } else {
      assert (a + b)[0] == a[0];
      assert (a + b)[1..] == a[1..] + b;
      AccountingAppend(a[1..], b, destExt, codec);
    }
  }

  /**
   The loop of `convert` (real run): every task is handed to the codec, in
   plan order, whatever happened to the tasks before it; a success bumps
   `converted`, either kind of failure appends the source to `failed`.
   `attempts` is the sequence of tasks handed to the codec.
   */
  method ExecutePlan(plan: seq<Task>, destExt: string, codec: Codec) returns (result: BatchResult, attempts: seq<Task>)
    ensures attempts == plan
    ensures result.processed == |plan|
    ensures result.converted == CountConverted(plan, destExt, codec)
    ensures result.failed == FailedSources(plan, destExt, codec)
    ensures result.converted + |result.failed| == |plan|
  {
    var converted: nat := 0;
    var failed: seq<string> := [];
    attempts := [];
    var i := 0;
    while i < |plan|
      invariant 0 <= i <= |plan|
      invariant attempts == plan[..i]
      invariant converted == CountConverted(plan[..i], destExt, codec)
      invariant failed == FailedSources(plan[..i], destExt, codec)
    {
      var task := plan[i];
      var outcome := codec(task, destExt);
      attempts := attempts + [task];
      AccountingAppend(plan[..i], [task], destExt, codec);
      assert plan[..i + 1] == plan[..i] + [task];
      match outcome {
        case Converted =>
          converted := converted + 1;
        case CorruptImage =>
          failed := failed + [task.source];
        case OtherError(_) =>
          failed := failed + [task.source];
      }
      i := i + 1;
    }
    assert plan[..i] == plan;
    ConvertedPlusFailed(plan, destExt, codec);
    result := BatchResult(|plan|, converted, failed);
  }

  /** The summary of a real run's accounting; "all converted" exactly when nothing failed. */
  function Summarize(result: BatchResult): (s: Summary)
    ensures s.AllConverted? <==> result.failed == []
    ensures s.AllConverted? ==> s.total == result.processed
    ensures s.SomeFailed? ==> s.processed == result.processed
    ensures s.SomeFailed? ==> s.failedCount == |result.failed| > 0 && s.converted == result.converted
  {
    if result.failed != [] then SomeFailed(result.processed, result.converted, |result.failed|)
    else AllConverted(result.processed)
  }

  /**
   The rest of `convert` once `to_convert` is built: a dry run previews the
   plan ("Nothing to change" when it is empty) and hands nothing to the
   codec; a real run executes it and, with `--verbose`, closes with the
   summary line.
   */
  method RunPlan(plan: seq<Task>, destExt: string, config: RunConfig, codec: Codec)
    returns (report: Report, attempts: seq<Task>)
    ensures config.dryRun ==> attempts == []
    ensures config.dryRun && plan == [] ==> report == NothingToChange
    ensures config.dryRun && plan != [] ==> report == WouldModify(plan, |plan|)
    ensures !config.dryRun ==> attempts == plan && report.Ran?
    ensures !config.dryRun ==> report.result.processed == |plan|
    ensures !config.dryRun ==> report.result.converted == CountConverted(plan, destExt, codec)
    ensures !config.dryRun ==> report.result.failed == FailedSources(plan, destExt, codec)
    ensures !config.dryRun ==> report.result.converted + |report.result.failed| == |plan|
    ensures !config.dryRun ==> (report.summary.Some? <==> config.verbose)
    ensures !config.dryRun && config.verbose ==> report.summary == Some(Summarize(report.result))
    ensures !config.dryRun && config.verbose ==>
              (report.summary.value.AllConverted? <==> forall t :: t in plan ==> !Fails(codec, t, destExt))
  {
    if config.dryRun {
      attempts := [];
      if plan != [] {
        report := WouldModify(plan, |plan|);
      } else {
        report := NothingToChange;
      }
      return;
    }
    var result;
    result, attempts := ExecutePlan(plan, destExt, codec);
    AllConvertedIffNoneFailed(plan, destExt, codec);
    var summary := if config.verbose then Some(Summarize(result)) else None;
    report := Ran(result, summary);
  }

  /**
   `convert(files, destExt, srcExt, outputDir)`: build `to_convert`, then
   preview or execute it (`RunPlan`). An empty output directory fails on the
   first matching input, before anything else happens; with no matching
   input it is never indexed and the plan is empty.
   */
  method Convert(isDir: DirOracle, files: seq<string>, destExt: string, srcExt: Option<string>,
                 outputDir: Option<string>, config: RunConfig, codec: Codec)
    returns (report: Report, attempts: seq<Task>)
    ensures report == OutputDirIndexError <==> outputDir == Some("") && AnyMatch(isDir, files, SourceExt(srcExt))
    ensures report == OutputDirIndexError || config.dryRun ==> attempts == []
    ensures outputDir == Some("") && !AnyMatch(isDir, files, SourceExt(srcExt)) ==>
              && (config.dryRun ==> report == NothingToChange)
              && (!config.dryRun ==> attempts == [] && report.Ran? && report.result == BatchResult(0, 0, []))
    ensures ValidOutputDir(outputDir) ==>
              var plan := PlanConversions(isDir, files, destExt, SourceExt(srcExt), outputDir);
              && (config.dryRun && plan == [] ==> report == NothingToChange)
              && (config.dryRun && plan != [] ==> report == WouldModify(plan, |plan|))
              && (!config.dryRun ==> attempts == plan && report.Ran?)
              && (!config.dryRun ==> report.result.processed == |plan|)
              && (!config.dryRun ==> report.result.converted == CountConverted(plan, destExt, codec))
              && (!config.dryRun ==> report.result.failed == FailedSources(plan, destExt, codec))
              && (!config.dryRun && config.verbose ==>
                    (report.summary.Some? && report.summary.value.AllConverted?
                     <==> forall t :: t in plan ==> !Fails(codec, t, destExt)))
    ensures report.Ran? ==> (report.summary.Some? <==> config.verbose)
    ensures report.Ran? && config.verbose ==> report.summary == Some(Summarize(report.result))
  {
    var ext := SourceExt(srcExt);
    if outputDir == Some("") && AnyMatch(isDir, files, ext) {
      report := OutputDirIndexError;
      attempts := [];
      return;
    }
    var dir := if outputDir == Some("") then None else outputDir;
    var toConvert := PlanConversions(isDir, files, destExt, ext, dir);
    AnyMatchIffPlanned(isDir, files, destExt, ext, dir);
    report, attempts := RunPlan(toConvert, destExt, config, codec);
  }

  /**
   `find_images(directory, destExt, srcExt, outputDir)` over the listing
   `entries` of a non-empty `directory`: "Nothing Found" (and no conversion)
   when no entry matches; otherwise `convert` on the joined matches, which
   plans exactly the reference scan plan.
   */
  method FindImages(isDir: DirOracle, directory: string, entries: seq<string>, destExt: string,
                    srcExt: Option<string>, outputDir: Option<string>, config: RunConfig, codec: Codec)
    returns (scan: ScanReport, attempts: seq<Task>)
    requires directory != ""
    ensures scan == NothingFound <==> forall n :: n in entries ==> !CheckFiletype(isDir, n, SourceExt(srcExt))
    ensures scan.Found? ==> scan.count == |ScanDirectory(isDir, directory, entries, SourceExt(srcExt))| > 0
    ensures scan == NothingFound || config.dryRun ==> attempts == []
    ensures outputDir == Some("") && scan.Found? ==>
              (scan.report == OutputDirIndexError
               <==> ScanPlanReference(isDir, directory, entries, destExt, SourceExt(srcExt), None) != [])
    ensures scan.Found? && scan.report == OutputDirIndexError ==> attempts == []
    ensures outputDir == Some("") && scan.Found? && scan.report != OutputDirIndexError ==>
              && (config.dryRun ==> scan.report == NothingToChange)
              && (!config.dryRun ==> attempts == [] && scan.report.Ran? && scan.report.result == BatchResult(0, 0, []))
    ensures scan.Found? && scan.report.Ran? ==> (scan.report.summary.Some? <==> config.verbose)
    ensures scan.Found? && scan.report.Ran? && config.verbose ==> scan.report.summary == Some(Summarize(scan.report.result))
    ensures ValidOutputDir(outputDir) ==>
              var plan := ScanPlanReference(isDir, directory, entries, destExt, SourceExt(srcExt), outputDir);
              && (scan.Found? && config.dryRun && plan == [] ==> scan.report == NothingToChange)
              && (scan.Found? && config.dryRun && plan != [] ==> scan.report == WouldModify(plan, |plan|))
              && (scan.Found? && !config.dryRun ==> attempts == plan && scan.report.Ran?)
              && (scan.Found? && !config.dryRun ==> scan.report.result.processed == |plan|)
              && (scan.Found? && !config.dryRun ==> scan.report.result.converted == CountConverted(plan, destExt, codec))
              && (scan.Found? && !config.dryRun ==> scan.report.result.failed == FailedSources(plan, destExt, codec))
  {
    var ext := SourceExt(srcExt);
    var toConvert := ScanDirectory(isDir, directory, entries, ext);
    ScanEmptyIffNoMatch(isDir, directory, entries, ext);
    if toConvert != [] {
      if ValidOutputDir(outputDir) {
        ScanThenPlan(isDir, directory, entries, destExt, ext, outputDir);
      } else {
        ScanThenPlan(isDir, directory, entries, destExt, ext, None);
        AnyMatchIffPlanned(isDir, toConvert, destExt, ext, None);
      }
      var report;
      report, attempts := Convert(isDir, toConvert, destExt, srcExt, outputDir, config, codec);
      scan := Found(|toConvert|, report);
    } else {
      scan := NothingFound;
      attempts := [];
    }
  }

  /**
   Three tasks, the second one corrupt: all three reach the codec, two are
   converted, and only the second source is recorded as failed.
   */
  lemma FailureIsolationExample(t1: Task, t2: Task, t3: Task, destExt: string, codec: Codec)
    requires codec(t1, destExt) == Converted && codec(t2, destExt) == CorruptImage && codec(t3, destExt) == Converted
    ensures CountConverted([t1, t2, t3], destExt, codec) == 2
    ensures FailedSources([t1, t2, t3], destExt, codec) == [t2.source]
  {
    assert [t1, t2, t3][1..] == [t2, t3] && [t2, t3][1..] == [t3] && [t3][1..] == [];
    assert !Fails(codec, t1, destExt) && Fails(codec, t2, destExt) && !Fails(codec, t3, destExt);
    assert FailedSources([t3], destExt, codec) == [] && CountConverted([t3], destExt, codec) == 1;
    assert FailedSources([t2, t3], destExt, codec) == [t2.source] && CountConverted([t2, t3], destExt, codec) == 1;
  }
}
