# unbmp — a Dafny model of the batch image converter's core

`unbmp` is a small command-line tool. It finds image files by extension, either in an explicit list of
file names or in one directory listing. It then converts each file to another format, next to the
source or into an output directory. This project models everything the tool decides for itself:

- **Extension matching** (`check_filetype`): a case-insensitive comparison of the name's trailing
  `|ext| + 1` characters with `"." + ext`. Directories are rejected.
- **Destination paths** (`get_conv_fname`): the name minus a fixed 4 characters, plus `"." + dest_ext`.
  With an output directory, only the name's last `/`-segment is kept, and it goes under that directory
  with exactly one `/` between them.
- **Directory joining** (`concat_filename`): directory, exactly one `/`, then the name.
- **Batch planning**: the filtering half of `convert`, and the scan in `find_images`. Both are
  order-preserving filter-then-map passes. The source extension defaults to `bmp`.
- **The conversion loop** (the rest of `convert`): a dry run converts nothing and reports the plan or
  "Nothing to change". A real run hands every task to the codec in order. A failure of either kind
  goes into the `failed` list, and the loop carries on.

Files, one module each:

| file | module | models |
|---|---|---|
| `optional.dfy` | `Optional` | `None` or a value, for the arguments that default to `None` |
| `pystrings.dfy` | `PyStrings` | Python's `str.lower()`/`str.upper()` (ASCII only), the clamping slices `s[-k:]` and `s[:-k]`, and `s.split('/')[-1]` |
| `filetype.dfy` | `FileType` | `check_filetype` |
| `paths.dfy` | `Paths` | `get_conv_fname`, `concat_filename` |
| `planning.dfy` | `Planning` | the `to_convert` list of `convert`, and the scan of `find_images` |
| `orchestration.dfy` | `Orchestration` | the dry-run branch and loop of `convert`, and `find_images` calling `convert` |

Some things come from outside the program, and each becomes a parameter:

- `os.path.isdir` is the oracle `isDir: string -> bool`. It is asked about each name exactly as the
  program passes it.
- `os.listdir(directory)` is the input sequence `entries`.
- The Wand image codec is `codec: (Task, string) -> CodecOutcome`. Its outcome is `Converted`,
  `CorruptImage` or `OtherError(message)`.
- The `-n` and `--verbose` flags are a read-only `RunConfig` value instead of two globals.
- `Convert`, `FindImages`, `RunPlan` and `ExecutePlan` also return `attempts`. This is the sequence of tasks handed
  to the codec, so "a dry run converts nothing" and "every task is attempted, in order" can be stated.

Some behaviours of unbmp.py worth knowing, all modelled as written:

- `check_filetype` rejects a name ending in `.` for every non-empty extension that does not end in
  `.`. The empty extension accepts `"foo."`, and the extension `"b."` accepts `"a.b."`, because
  the comparison is purely on characters. This is why `RejectsMalformedNames` carries that condition.
- `check_filetype` ignores case only when `os.path.isdir` answers the same for both spellings of the
  name, because it is asked about the name as given.
- `find_images` queries `isdir` twice: first on the bare entry name, then on the joined path when
  `convert` filters again. `ScanThenPlan` shows the second query can only drop a joined path that
  the oracle calls a directory.
- With ASCII case folding, the length guard in `check_filetype` never decides anything: the slice
  comparison alone gives the same answer (`LengthGuardRedundant`). Python's full `str.lower()` can
  lengthen a string (`"İ".lower()` has 2 characters), so there the guard can matter.
- `get_conv_fname` always strips 4 characters, whatever the source extension's length. This is kept
  as written. `ConvFnameStripsExtensionIffThreeChars` shows it removes exactly the matched
  `"." + ext` only when `ext` has 3 characters.
- An empty output directory makes `get_conv_fname` raise `IndexError` on `output_dir[-1]`. That
  happens only once an input matches, before any preview or conversion. With no matching input,
  `convert` finishes normally. `Convert` reports the error as `OutputDirIndexError` in exactly that
  case.

## Model

| member | source | states |
|---|---|---|
| `PyStrings.Lower` | unbmp.py:27 | `.lower()` keeps the length and folds each character to ASCII lower case, and nothing else |
| `PyStrings.Tail` | unbmp.py:27 | `s[-k:]` has length `min(k, |s|)` and is the suffix of `s` of that length |
| `PyStrings.DropLast` | unbmp.py:40-45 | `s[:-k]` has length `max(|s| - k, 0)` and is the prefix of `s` of that length |
| `PyStrings.LastSegment` | unbmp.py:40 | `split('/')[-1]` is a slash-free suffix of the name, and the character before it, if any, is `/` (the longest such suffix) |
| `PyStrings.LastSegmentOfPlainName` | unbmp.py:40 | a name without `/` is its own last segment |
| `FileType.SuffixMatchesIsHasExtension` | unbmp.py:27 | the lower-cased trailing-slice comparison holds exactly when the character before the last `|ext|` characters is `.` and those characters equal `ext` up to case |
| `FileType.CheckFiletype` | unbmp.py:15-27 | accepts exactly the non-directories that have a `.` right before a case-insensitive copy of the extension at their end |
| `FileType.LengthGuardRedundant` | unbmp.py:25-27 | the result equals "not a directory and the slice comparison holds"; with ASCII case folding the length guard changes nothing |
| `FileType.HasExtensionTransfers` | unbmp.py:27 | having the extension carries over to any re-casing of name and extension |
| `FileType.HasExtensionIgnoresCase` | unbmp.py:27 | the string part of the match is invariant under re-casing either argument |
| `FileType.CheckFiletypeIgnoresCase` | unbmp.py:23-27 | re-casing the name and/or the extension never changes the verdict, given the same directory answer for both spellings |
| `FileType.CheckFiletypeCaseVariants` | test_unbmp.py:8-21 | the upper- and lower-cased name with the original, upper- and lower-cased extension all give the original verdict |
| `FileType.RejectsMalformedNames` | unbmp.py:25-27 | rejects names no longer than the extension, names without `.` before the extension, and names ending in `.` (for a non-empty extension not ending in `.`) |
| `FileType.CheckFiletypeAcceptsExamples` | test_unbmp.py:4-21 | `abcABC123.bMp` and its upper-cased form are accepted for `bmP` and `bmp` |
| `FileType.CheckFiletypeRejectsExamples` | test_unbmp.py:23-33 | the test's no-dot and trailing-dot names are rejected |
| `Paths.ConcatFilename` | unbmp.py:48-59 | the join starts with the directory, ends with the name, has `/` right before the name, and adds one character only when the directory lacks a trailing `/` |
| `Paths.ConcatIgnoresTrailingSlash` | unbmp.py:56-59 | `concat_filename(p, f) == concat_filename(p + "/", f) == p + "/" + f` for `p` without a trailing `/` |
| `Paths.GetConvFname` | unbmp.py:30-45 | the destination ends with `"." + dest_ext`; in place it is a prefix of the source 4 characters shorter (or empty) plus the extension; with an output directory it starts with that directory |
| `Paths.ConvFnameIntoDirIsJoin` | unbmp.py:39-43 | with an output directory, the destination is that directory joined by `concat_filename` with the in-place destination of the name's last segment |
| `Paths.ConvFnameIgnoresTrailingSlash` | unbmp.py:41-43 | output directories `d` and `d + "/"` give the same destination |
| `Paths.ConvFnameKeepsDirectory` | unbmp.py:44-45 | in place, the source's directory part is kept and only the last segment is converted (when that segment has at least 4 characters) |
| `Paths.ConvFnameStripsExtensionIffThreeChars` | unbmp.py:40-45 | for a name with source extension `ext`, the fixed 4-character strip replaces exactly `"." + ext` if and only if `ext` has 3 characters |
| `Paths.ConvFnameInPlaceExamples` | unbmp.py:44-45 | for example, `abcABC123.bmp` and `/a/b/abcABC123.bmp` become `abcABC123.png` and `/a/b/abcABC123.png` |
| `Paths.ConvFnameIntoDirExamples` | unbmp.py:39-43 | for example, `/a/b/abcABC123.bmp` sent to `/a/c/` or to `/a/c` becomes `/a/c/abcABC123.png` |
| `Planning.SourceExt` | unbmp.py:79-82 | a missing source extension means `bmp`, a given one is used as is |
| `Planning.PlanConversions` | unbmp.py:84-87 | the `to_convert` list; its own contract only bounds its length by the input's, while its contents and order are stated by `PlannedTaskMatches`, `MatchingInputPlanned`, `PlanAppend`, `PlanSingle` and `AnyMatchIffPlanned` |
| `Planning.PlannedTaskMatches` | unbmp.py:84-87 | every planned task's source is an input that passes `check_filetype`, and its destination is that input's `get_conv_fname` result, ending in `"." + dest_ext` |
| `Planning.MatchingInputPlanned` | unbmp.py:84-87 | every input that passes `check_filetype` is planned with its destination |
| `Planning.PlanAppend` | unbmp.py:84-87 | the plan of `a + b` is the plan of `a` followed by the plan of `b`, so input order is kept |
| `Planning.AnyMatchIffPlanned` | unbmp.py:84-87 | `to_convert` is non-empty exactly when some input passes `check_filetype`, whatever the output directory |
| `Planning.PlanSingle` | unbmp.py:85-87 | one name is planned exactly when it matches |
| `Planning.ScanDirectory` | unbmp.py:145-149 | the paths `find_images` collects; its own contract only bounds their number by the listing's, while their contents are stated by `MatchingEntryCollected`, `CollectedPathMatches` and `ScanEmptyIffNoMatch`, and their planning by `ScanThenPlan` |
| `Planning.MatchingEntryCollected` | unbmp.py:145-149 | every listed entry that matches is collected, joined to the directory |
| `Planning.CollectedPathMatches` | unbmp.py:145-149 | every collected path is some matching entry joined to the directory |
| `Planning.ScanEmptyIffNoMatch` | unbmp.py:145-151 | the scan collects nothing exactly when no entry matches |
| `Planning.JoinKeepsExtension` | unbmp.py:56-59 | a name with the extension still has it after being joined under a directory |
| `Planning.ScanThenPlan` | unbmp.py:145-154 | `convert`'s plan of the scanned paths equals the reference plan: the entries that match and whose joined path is not a directory, joined, with their destinations |
| `Orchestration.FailedSourcesMembers` | unbmp.py:110-115 | a task the codec fails on has its source in `failed`, and every source in `failed` belongs to such a task |
| `Orchestration.AllConvertedIffNoneFailed` | unbmp.py:117-122 | every task is converted, and equally `failed` is empty, exactly when the codec fails on no task |
| `Orchestration.ConvertedPlusFailed` | unbmp.py:99-115 | `converted + len(failed) == len(to_convert)` |
| `Orchestration.AccountingAppend` | unbmp.py:99-115 | the accounting of `a + b` is that of `a` followed by that of `b`: earlier failures do not affect later tasks |
| `Orchestration.ExecutePlan` | unbmp.py:99-115 | the real-run loop hands every task to the codec in plan order, counts the successes, lists the failed sources in order, and accounts for every task once |
| `Orchestration.Summarize` | unbmp.py:117-122 | the closing verbose line reports "all converted" exactly when nothing failed, with the number of tasks; otherwise it reports the tasks processed, the number converted and the number failed |
| `Orchestration.RunPlan` | unbmp.py:89-122 | a dry run hands nothing to the codec and previews the plan or reports "Nothing to change"; a real run attempts exactly the plan, counts and lists as the reference accounting does, and with `--verbose` closes with a summary that says "all converted" exactly when the codec fails on no task |
| `Orchestration.Convert` | unbmp.py:62-122 | an empty output directory fails exactly when some input matches, with nothing attempted; otherwise the plan is `PlanConversions` (empty for an unused empty output directory), a dry run previews it, and a real run attempts exactly it, with the reference count and failed list and, under `--verbose`, the summary of that result |
| `Orchestration.FindImages` | unbmp.py:125-156 | reports "Nothing Found" and converts nothing exactly when no entry matches; otherwise runs `convert` on the reference scan plan, with its conversion count, failed list and verbose summary; with an empty output directory it fails, attempting nothing, exactly when that plan is non-empty, and otherwise ends as an empty run |
| `Orchestration.FailureIsolationExample` | unbmp.py:99-115 | with three tasks and the second corrupt, two are converted and only the second source is listed as failed |

## Left out

- `main` and argparse: option parsing, the three usage errors and `exit(1)` are process plumbing.
- Wand's `Image` decode and encode are a foreign library. The codec parameter stands in for them.
- The codec is a function of the task and the format. Two identical tasks in one plan therefore get
  the same outcome, while a live codec might differ between the two attempts.
- `os.path.isdir` and `os.listdir` are live filesystem queries. They become a predicate parameter
  and an input sequence.
- Printed wording is not modelled: the progress lines, the per-file error messages and the `'None'`
  printed for a missing source extension. The model keeps only the dry-run plan and count, the
  "Nothing to change" and "Nothing Found" outcomes, and the final summary numbers.
- Releasing the image handle after each task (the `with` block) is not modelled, because it is only
  resource handling.
- `str.lower()` and `str.upper()` are modelled for ASCII letters only. Full Unicode folding can change
  a string's length. An example is `check_filetype(".İİ", "i\u0307i\u0307")`: the source rejects it
  only through the length guard. `LengthGuardRedundant` and the case lemmas do not cover such names.
- An empty scan directory never reaches `concat_filename`: `os.listdir("")` raises
  `FileNotFoundError` first. The listing is a parameter, so `FindImages` requires a non-empty
  directory instead of modelling that failure.
- `Paths.GetConvFname`, `Planning.PlanConversions` and `Planning.ScanPlanReference` require a
  non-empty output directory, because `get_conv_fname` raises on an empty one. The empty case is
  modelled one level up, in `Convert` and `FindImages`.
- The program's own `print` calls are taken never to raise. In the source they sit inside the loop's
  control flow:
  - The verbose line at unbmp.py:109 and leaving the `with` block run inside the `try` after
    `converted += 1`. An exception there would count a task both as converted and as failed.
  - The prints at unbmp.py:101, 111 and 114 are outside the `try` or inside its handlers. An
    exception there would stop the loop.
  - An example is a `UnicodeEncodeError` from printing an undecodable file name.
  
  `ExecutePlan`, `ConvertedPlusFailed` and the failure isolation of `AccountingAppend` hold only
  under that assumption.
- `Planning.PlanConversions`: its own contract only bounds the length, because quantified
  membership facts on the recursive function are costly to verify. Contents and order are stated
  by `PlannedTaskMatches`, `MatchingInputPlanned`, `PlanAppend` and `AnyMatchIffPlanned`.
- `Planning.ScanDirectory`: its own contract only bounds the length, for the same reason. Contents
  are stated by `MatchingEntryCollected`, `CollectedPathMatches` and `ScanEmptyIffNoMatch`.
- `Orchestration.FailedSources` and `Orchestration.CountConverted` are the reference definitions of
  the loop's result. Their own contracts only bound the size.
