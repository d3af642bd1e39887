# assist09 summariser — a Dafny model

Two scripts check and summarise the assist09 knowledge-tracing dataset. A
data file is a stream of 4-line records, one per student:

- the declared sequence length (`seq_len`);
- comma-separated question ids;
- comma-separated skill ids;
- comma-separated responses.

Both scripts work the same way on each file:

1. Strip every line and drop the ones that become blank.
2. Warn when the number of lines is not a multiple of 4, and when the trailing block is truncated.
3. Skip a block whose `seq_len` is not an integer, with a warning.
4. Warn when the four lengths disagree, but still count the block.
5. Accumulate:
   - the number of students (blocks counted);
   - the set of distinct question ids;
   - the set of distinct skill ids;
   - the total number of interactions (question-id tokens).

The multi-file script (`compute_assist09_stats.py`) folds `train.txt` then
`test.txt` into one set of accumulators; a missing file only adds a warning.
The single-file script (`compute_assist09_train_only.py`) reads `train.txt`
alone and exits with status 1 when it is missing. Both print nothing about
warnings when there are none; otherwise they print a header and the first 50
warnings, and, only when there are more than 50, a line counting the rest.
An uncaught exception ends either script with status 1.

The model is functional:

- a file is a `FileInput`: its path, whether it exists, and its raw lines;
- warnings are values of a `Warning` datatype rather than message strings;
- a run returns `Ok(summary)`, or `Crash(info)` for the exception described below.

Modules:

- `Text`: whitespace stripping (the set `str.strip()` removes and the smaller set `int()` skips), the line stream, `str.split(',')` and the non-empty token filter.
- `PyInt`: a simplified CPython `int(x)`, including its default limit of 4300 digits.
- `Aggregate`: warnings, accumulators and results.
- `Blocks`: one 4-line block.
- `Scan`: one file's scan, as a fold and as the scripts' loop.
- `ScanFacts`: what a file adds, stated against the layout of its line stream.
- `Runs`: the two scripts as whole runs, and the reference totals of a run.
- `Display`: the capped warning report.

The question-id and skill-id tokens go through an unguarded `int(x)`. An
id token that `int()` rejects, in a complete block whose `seq_len` parses,
therefore raises and ends the whole run. A bad `seq_len`, by contrast, is
caught, and its block is skipped before its ids are read; the lines of a
truncated trailing block are never read as ids either. The model follows the code here. Such a run ends in
`Crash(BadId(path, line, token))`, where the token is the first one
`int()` rejects. Response tokens are never parsed, so they can never cause
a crash.

Line numbers in warnings are 1-based positions in the stripped line
stream, as in the scripts, not positions in the raw file.

## Model

| member | source | states |
|---|---|---|
| Text.Strip | scripts/compute_assist09_stats.py:15 | stripping with a given whitespace set (`l.strip()` uses `str.isspace()`) is the slice of the line that starts after its leading whitespace; only whitespace follows it, and it neither starts nor ends with whitespace |
| Text.StripIdempotent | scripts/compute_assist09_stats.py:15 | stripping a stripped line changes nothing |
| Text.StripPadded | scripts/compute_assist09_stats.py:15 | stripping a non-empty trimmed string padded with whitespace on both sides gives back exactly that string |
| Text.Stream | scripts/compute_assist09_stats.py:15 | the line stream is no longer than the file and none of its lines is empty or has surrounding whitespace |
| Text.StreamAppend | scripts/compute_assist09_stats.py:15 | the stream of two runs of raw lines is the stream of the first followed by the stream of the second, so the original order is kept |
| Text.StreamSingle | scripts/compute_assist09_train_only.py:7 | one raw line contributes its stripped form exactly when that is not empty, and nothing otherwise |
| Text.StreamIdempotent | scripts/compute_assist09_train_only.py:7 | building the stream again from a stream gives the same stream |
| Text.StreamFromRaw | scripts/compute_assist09_stats.py:15 | every stream line is the stripped form of some raw line |
| Text.Split | scripts/compute_assist09_stats.py:32-34 | `split(',')` gives at least one piece and no piece holds a comma |
| Text.JoinSplit | scripts/compute_assist09_stats.py:32-34 | joining the pieces of a split with the separator gives back the line |
| Text.SplitJoin | scripts/compute_assist09_stats.py:32-34 | splitting a join of separator-free pieces gives back the pieces |
| Text.NonEmpty | scripts/compute_assist09_stats.py:32-34 | the `if x!=''` filter keeps only non-empty pieces, each taken from the input, and no more pieces than it was given |
| Text.NonEmptySingle | scripts/compute_assist09_stats.py:32-34 | a single piece is kept exactly when it is not empty |
| Text.NonEmptyAppend | scripts/compute_assist09_stats.py:32-34 | filtering a concatenation filters each part: every non-empty piece is kept, in order, and nothing else |
| Text.Tokens | scripts/compute_assist09_train_only.py:28-30 | every token of a list line is non-empty and holds no comma |
| Text.TokensKeepContent | scripts/compute_assist09_stats.py:32-34 | the tokens concatenated are the line with its commas removed: dropping empty pieces loses no content |
| Text.TokensOfJoin | scripts/compute_assist09_stats.py:32-34 | a line written as non-empty comma-free tokens joined by commas reads back as exactly those tokens |
| Text.TokensOfPieces | scripts/compute_assist09_stats.py:32-34 | the tokens of a comma-joined list of comma-free pieces are exactly its non-empty pieces, in order |
| Text.TokensTrailingComma | scripts/compute_assist09_train_only.py:28-30 | a trailing comma adds no token: `"1,2,"` reads as the tokens of `"1,2"` |
| PyInt.ParseInt | scripts/compute_assist09_stats.py:25 | an accepted string, stripped of the whitespace `int()` skips, is an optional sign followed by digits and underscores; a negative result comes from a leading `-` |
| PyInt.ParseIntStrip | scripts/compute_assist09_stats.py:25 | surrounding whitespace that `int()` skips (`str.isspace()` less U+001C..U+001F) never changes what `int(x)` returns |
| PyInt.NonNumericRejected | scripts/compute_assist09_stats.py:24-28 | a string holding any character other than whitespace `int()` skips, a digit, an underscore or a sign is rejected |
| PyInt.SeparatorNotSkipped | scripts/compute_assist09_stats.py:32-33 | U+001C is whitespace to `str.strip()` but not to `int()`, so `int("\x1c5")` raises |
| PyInt.ParsePadded | scripts/compute_assist09_stats.py:25 | every numeral of at most 4300 digits, with an optional sign and any padding of `int()` whitespace, is accepted with its signed value |
| PyInt.TooManyDigitsRejected | scripts/compute_assist09_stats.py:24-28 | a numeral of more than 4300 digits is rejected, however it is signed or padded |
| PyInt.ParseIntAccepted | scripts/compute_assist09_stats.py:25 | an accepted string is, once stripped of `int()` whitespace, an optional sign and a well-formed numeral of at most 4300 digits, and the result is its signed value; so `"1_"`, `"+"` and `"+_5"` are rejected |
| PyInt.ParseIntDigitBound | scripts/compute_assist09_stats.py:25 | an accepted string holds at most 4300 digits |
| PyInt.ParseShowInt | scripts/compute_assist09_stats.py:25 | `int(str(n)) == n` for every integer of at most 4300 digits |
| PyInt.ParseIntLeadingZeros | scripts/compute_assist09_stats.py:25 | leading zeros are accepted (`"007"` is 7) |
| PyInt.ParseIntUnderscore | scripts/compute_assist09_stats.py:25 | a single underscore between digits is accepted (`"1_0"` is 10) |
| PyInt.ParseIntDoubleUnderscore | scripts/compute_assist09_stats.py:25 | a doubled underscore is rejected |
| PyInt.ParseIntLeadingUnderscore | scripts/compute_assist09_stats.py:25 | a leading underscore is rejected |
| Blocks.ParseIds | scripts/compute_assist09_stats.py:32-33 | `[int(x) for x in toks]` succeeds exactly when every token parses, giving each token's value in order; otherwise it raises on a token that does not parse, all tokens before it parsing |
| Blocks.ParseIdsSet | scripts/compute_assist09_stats.py:39-40 | the set of parsed ids is the set of integers the tokens denote |
| Blocks.BlockEffect | scripts/compute_assist09_stats.py:23-41 | one block: a bad `seq_len` gives exactly one warning and adds nothing; otherwise one student, the block's ids and its question-token count; a mismatch warning exactly when the four lengths are not all equal, with those lengths; a crash exactly when an id token does not parse |
| Scan.FoldBlocks | scripts/compute_assist09_stats.py:18-41 | the block loop only appends warnings, only grows the id sets, and adds at most one student per block; a crash names the file and a token `int()` rejects |
| Scan.ScanStream | scripts/compute_assist09_stats.py:16-22 | a stream whose length is not a multiple of 4 adds at least two warnings; students grow by at most `n / 4` |
| Scan.SummariseFile | scripts/compute_assist09_stats.py:11-15 | a missing path appends exactly one `MissingFile` warning and changes nothing else; only an existing file can crash on a bad id token |
| Scan.FoldCrashStep | scripts/compute_assist09_stats.py:32-33 | once an id token has raised, a further block does not change the outcome |
| Scan.WalkBlocks | scripts/compute_assist09_stats.py:18-22 | the `range(0, n, 4)` loop with its truncation break visits exactly the `n / 4` complete blocks and computes the fold over them |
| Scan.ScanLines | scripts/compute_assist09_train_only.py:13-36 | the single-file script's scan, in its imperative form, computes the per-file scan |
| ScanFacts.FoldOk | scripts/compute_assist09_stats.py:29-33 | the blocks crash exactly when some counted block has an id token that does not parse |
| ScanFacts.FoldStudents | scripts/compute_assist09_stats.py:18-38 | the students added plus the blocks with a bad `seq_len` equal the number of complete blocks |
| ScanFacts.FoldInteractions | scripts/compute_assist09_stats.py:38-41 | the interactions added are the question-token counts of the counted blocks, summed |
| ScanFacts.FoldProblems | scripts/compute_assist09_stats.py:38-39 | the problem set gains exactly the question ids of the counted blocks |
| ScanFacts.FoldSkills | scripts/compute_assist09_stats.py:38-40 | the skill set gains exactly the skill ids of the counted blocks |
| ScanFacts.BlockWarningTally | scripts/compute_assist09_stats.py:24-37 | a block gives one bad-`seq_len` warning when skipped, one mismatch warning when mismatched, and none of any other kind |
| ScanFacts.FoldWarnings | scripts/compute_assist09_stats.py:18-37 | the block loop's warnings, by kind: one per bad `seq_len`, one per mismatched counted block, none of the other kinds |
| ScanFacts.FoldWarningPaths | scripts/compute_assist09_stats.py:27-36 | every warning of the block loop names the file |
| ScanFacts.BlockEffectWarning | scripts/compute_assist09_stats.py:23-37 | a block that does not crash gives exactly the warning its layout calls for: a bad `seq_len` at its first line, or a mismatch with the four lengths, or none |
| ScanFacts.FoldWarningList | scripts/compute_assist09_stats.py:18-37 | the block loop appends exactly the blocks' expected warnings, in block order |
| ScanFacts.FileTotals | scripts/compute_assist09_stats.py:15-41 | an existing file crashes exactly when a counted block has a bad id token; otherwise it adds `n / 4` students less the bad-`seq_len` blocks, and the ids and question tokens of the counted blocks |
| ScanFacts.ScanStreamTally | scripts/compute_assist09_stats.py:16-37 | a stream adds one line-count and one truncation warning exactly when its length is not a multiple of 4, plus the block warnings by kind |
| ScanFacts.FileWarnings | scripts/compute_assist09_train_only.py:13-32 | the warnings an existing file adds, counted by kind, are those its line stream should give |
| ScanFacts.ScanStreamOrder | scripts/compute_assist09_stats.py:16-22 | when `n % 4 != 0` the line-count warning comes first and the truncation warning at line `4 * (n / 4) + 1` comes last; every warning names the file |
| ScanFacts.FileWarningOrder | scripts/compute_assist09_train_only.py:13-18 | the same order for an existing file's line stream |
| ScanFacts.ScanStreamWarningList | scripts/compute_assist09_stats.py:16-37 | a completed scan appends exactly the line-count warning, the blocks' warnings in order, then the truncation warning |
| ScanFacts.WellFormedStreamIsClean | scripts/compute_assist09_stats.py:16-41 | a well-formed stream adds no warnings and counts every one of its blocks |
| ScanFacts.WellFormedFileIsClean | scripts/compute_assist09_stats.py:15-41 | a file whose stream is well formed completes, adds no warnings, and counts every block |
| Runs.SummariseFrom | scripts/compute_assist09_stats.py:10-41 | the fold over the files only appends warnings; a crash names an existing file of the list and a token `int()` rejects |
| Runs.RunOk | scripts/compute_assist09_stats.py:10-33 | a run whose existing files all read as text completes exactly when no existing file has a bad id token in a counted block |
| Runs.RunTotals | scripts/compute_assist09_stats.py:10-41 | a completed run adds to the counters the sum of what each file should add |
| Runs.RunWarnings | scripts/compute_assist09_stats.py:10-37 | a completed run's warnings, by kind, are the sum of what each file should give |
| Runs.RunWarningOrder | scripts/compute_assist09_stats.py:10-37 | a completed run appends the files' expected warnings in list order, a missing file giving its missing-file warning |
| Runs.MissingFileIsNeutral | scripts/compute_assist09_stats.py:11-13 | a missing path anywhere in the list leaves the outcome and the counters unchanged, and adds exactly one missing-file warning |
| Runs.StatsScript | scripts/compute_assist09_stats.py:4-13 | the script over `train.txt` then `test.txt` completes exactly when neither file crashes, and then warns once per missing file, its warnings being those `train.txt` should give followed by those `test.txt` should give |
| Runs.StatsScriptStatus | scripts/compute_assist09_stats.py:10-41 | the multi-file script exits with status 0 exactly when neither file has a bad id token, and 1 otherwise |
| Runs.TrainOnly | scripts/compute_assist09_train_only.py:3-36 | a missing file, and only a missing file, ends the script through `SystemExit(1)`; the exit status is 0 exactly when the file exists and has no bad id token in a counted block, and 1 otherwise (a bad id token raises an uncaught `ValueError`); a completed run has no missing-file warning and holds exactly the file's expected warnings, in order |
| Runs.TrainOnlyMatchesStats | scripts/compute_assist09_train_only.py:13-36 | for an existing file the single-file script ends as the multi-file fold over that one file does |
| Runs.TrainOnlyTotals | scripts/compute_assist09_train_only.py:15-36 | it aborts exactly when a counted block has a bad id token; otherwise students are `n / 4` less the bad-`seq_len` blocks, with the ids and question tokens of the counted blocks |
| Runs.TrainOnlyWarnings | scripts/compute_assist09_train_only.py:13-32 | its warnings, by kind, are those the file's line stream should give |
| Display.ShowWarnings | scripts/compute_assist09_stats.py:48-53 | nothing is shown exactly when there are no warnings; otherwise a prefix of at most 50, all of them when fewer than 50, with an overflow count exactly when there are more than 50 |
| Display.ListingAccountsForAll | scripts/compute_assist09_stats.py:50-53 | the shown warnings followed by as many as the overflow count make up the whole list, in order |
| Display.ListingStable | scripts/compute_assist09_stats.py:50-53 | past 50 warnings, more warnings only raise the overflow count |
| Display.LinesCount | scripts/compute_assist09_train_only.py:42-47 | the report has no lines without warnings; otherwise a header, `min(50, n)` warning lines, and one overflow line when `n > 50` |
| Display.Report | scripts/compute_assist09_train_only.py:42-47 | the report loop prints exactly the lines the listing calls for |

## Left out

- Locating, opening and decoding files, and splitting a file into lines: a file is given as its path, whether it exists, and its raw lines.
- Printing of the counters (`compute_assist09_stats.py` lines 43-47, `compute_assist09_train_only.py` lines 37-41) and of the missing-file message before exit: this is output formatting only.
- The text of warnings and of the exception: warnings are datatype values, and the two scripts differ only in wording.
- PyInt.ParseInt: does not accept non-ASCII decimal digits, which Python's `int()` does; signs, surrounding whitespace, leading zeros and single underscores between digits are modelled.
- PyInt.ParseInt: assumes CPython 3.11 or later (or a release carrying the same fix) with the default limit of 4300 digits; a limit changed through `PYTHONINTMAXSTRDIGITS` or `sys.set_int_max_str_digits`, and older interpreters without a limit, are not modelled.
- PyInt.ParseShowInt: stated only for integers of at most 4300 digits, because CPython rejects longer numerals by default.
- Failing to open or decode an existing path (a directory, a file that is not valid UTF-8, missing permissions) at `compute_assist09_stats.py` lines 14-15 or `compute_assist09_train_only.py` lines 6-7 raises and ends the script with status 1; the model assumes every existing path reads as lines, so `Runs.RunOk`, `Scan.SummariseFile` and `Runs.TrainOnly` speak only of bad id tokens.
- The traceback of the crash: only the file, the line and the offending token are kept.
- The fixed list `[train.txt, test.txt]`: the fold `Runs.SummariseFrom` is stated over any list of files, and `Runs.StatsScript` is that fold over the two-file list.
- `live_test/` (web routes and database set-up) and `check_cuda.py` (GPU introspection): they are not part of the summariser.
