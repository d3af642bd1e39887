/**
 The per-file scan shared by both assist09 scripts: check the line count,
 walk the line stream four lines at a time, stop at a truncated trailing
 block, and fold every complete block into the accumulators.
 */
module Scan {
  import opened Text
  import opened Aggregate
  import opened Blocks
  import opened PyInt

  /** A file named on the command line: whether it exists, and its raw lines. */
  datatype FileInput = FileInput(path: string, present: bool, raw: seq<string>)

  /**
   The accumulators after the first `k` complete blocks of `lines` have been
   processed in order, starting from `acc`; the first bad id token aborts.
   */
  function FoldBlocks(acc: Summary, path: string, lines: seq<string>, k: nat): (r: Result<Summary>)
    requires 4 * k <= |lines|
    ensures r.Ok? ==> acc.warnings <= r.value.warnings
    ensures r.Ok? ==> acc.problems <= r.value.problems && acc.skills <= r.value.skills
    ensures r.Ok? ==> acc.students <= r.value.students <= acc.students + k
    ensures r.Ok? ==> |r.value.warnings| <= |acc.warnings| + k
    ensures r.Crash? ==> r.info.path == path && ParseInt(r.info.token).None?
    decreases k
  {
    if k == 0 then Ok(acc)
    else
      match FoldBlocks(acc, path, lines, k - 1)
      case Crash(c) => Crash(c)
      case Ok(s) => Lift(s, BlockEffect(path, lines, k - 1))
  }

  /**
   One file's line stream processed on top of `acc`: a line-count warning
   first when the count is not a multiple of 4, then the complete blocks, then
   a truncation warning for the incomplete trailing block if there is one.
   */
  function ScanStream(acc: Summary, path: string, lines: seq<string>): (r: Result<Summary>)
    ensures r.Ok? ==> acc.warnings <= r.value.warnings
    ensures r.Ok? ==> acc.students <= r.value.students <= acc.students + |lines| / 4
    ensures r.Ok? && |lines| % 4 != 0 ==> |r.value.warnings| >= |acc.warnings| + 2
    ensures r.Crash? ==> r.info.path == path && ParseInt(r.info.token).None?
  {
    var n := |lines|;
    var m := n / 4;
    match FoldBlocks(Prelude(acc, path, lines), path, lines, m)
    case Crash(c) => Crash(c)
    case Ok(s) => Ok(if n % 4 != 0 then Warn(s, Truncated(path, 4 * m + 1)) else s)
  }

  /** The accumulators before the first block: the line-count warning, if due. */
  function Prelude(acc: Summary, path: string, lines: seq<string>): Summary {
    if |lines| % 4 != 0 then Warn(acc, BadLineCount(path, |lines|)) else acc
  }

  /**
   One file of the multi-file script on top of `acc`: a missing file adds
   only a `MissingFile` warning; an existing one is read into its line stream
   and scanned.
   */
  function SummariseFile(acc: Summary, f: FileInput): (r: Result<Summary>)
    ensures !f.present ==> r.Ok? && r.value.warnings == acc.warnings + [MissingFile(f.path)]
    ensures !f.present ==> r.Ok? && r.value.(warnings := acc.warnings) == acc
    ensures r.Ok? ==> acc.warnings <= r.value.warnings
    ensures r.Ok? ==> acc.students <= r.value.students
    ensures r.Crash? ==> f.present && r.info.path == f.path && ParseInt(r.info.token).None?
  {
    if !f.present then Ok(Warn(acc, MissingFile(f.path)))
    else ScanStream(acc, f.path, Stream(f.raw))
  }

  /** Once the fold has crashed, the next block does not change the outcome. */
  lemma FoldCrashStep(acc: Summary, path: string, lines: seq<string>, j: nat, c: Result<Summary>)
    requires 4 * j + 4 <= |lines|
    requires FoldBlocks(acc, path, lines, j) == c && c.Crash?
    ensures FoldBlocks(acc, path, lines, j + 1) == c
  {
  }

  lemma ScanStreamFromFold(acc: Summary, path: string, lines: seq<string>, r: Result<Summary>)
    requires FoldBlocks(Prelude(acc, path, lines), path, lines, |lines| / 4) == r
    ensures r.Crash? ==> ScanStream(acc, path, lines) == r
    ensures r.Ok? && |lines| % 4 == 0 ==> ScanStream(acc, path, lines) == r
    ensures r.Ok? && |lines| % 4 != 0 ==>
              ScanStream(acc, path, lines) == Ok(Warn(r.value, Truncated(path, 4 * (|lines| / 4) + 1)))
  {
  }

  lemma FoldNext(acc: Summary, path: string, lines: seq<string>, k: nat, s: Summary, e: Result<Summary>)
    requires 4 * k + 4 <= |lines|
    requires FoldBlocks(acc, path, lines, k) == Ok(s)
    requires BlockEffect(path, lines, k) == e
    ensures FoldBlocks(acc, path, lines, k + 1) == Lift(s, e)
  {
  }

  /** A block that fits in the stream is one of its `n / 4` complete blocks. */
  lemma BlockFits(n: nat, k: nat)
    requires 4 * k + 4 <= n
    ensures k + 1 <= n / 4
  {
  }

  /** The block loop stops at block `n / 4`. */
  lemma LoopEnd(n: nat, k: nat)
    requires 4 * k <= n <= 4 * k + 3
    ensures n / 4 == k
  {
  }

  /**
   The scripts' `for i in range(0, len(lines), 4)` loop over the complete
   blocks, starting from `start`: it stops at the first block with fewer than
   4 lines left, or at the first crash.
   */
  method WalkBlocks(start: Summary, path: string, lines: seq<string>) returns (m: nat, r: Result<Summary>)
    ensures m == |lines| / 4
    ensures r == FoldBlocks(start, path, lines, m)
  {
    var s := start;
    var k: nat := 0;
    while 4 * k + 3 < |lines|   // block k starts at line i = 4 * k
      invariant 4 * k <= |lines|
      invariant FoldBlocks(start, path, lines, k) == Ok(s)
      decreases |lines| - 4 * k
    {
      var e := BlockEffect(path, lines, k);
      FoldNext(start, path, lines, k, s, e);
      if e.Crash? {
        m := |lines| / 4;
        BlockFits(|lines|, k);
        // Once raised, the crash is the outcome of every longer prefix.
        ghost var j := k + 1;
        while j < m
          invariant j <= m
          invariant FoldBlocks(start, path, lines, j) == e
        {
          FoldCrashStep(start, path, lines, j, e);
          j := j + 1;
        }
        return m, e;
      }
      s := Combine(s, e.value);
      k := k + 1;
    }
    LoopEnd(|lines|, k);
    m, r := k, Ok(s);
  }

  /**
   The whole per-file scan in the scripts' imperative form: the line-count
   check, the block loop, and the truncation warning when the loop stopped
   short of the end. It computes exactly `ScanStream`.
   */
  method ScanLines(acc: Summary, path: string, lines: seq<string>) returns (r: Result<Summary>)
    ensures r == ScanStream(acc, path, lines)
  {
    var s := acc;
    if |lines| % 4 != 0 {
      s := Warn(s, BadLineCount(path, |lines|));
    }
    var m;
    m, r := WalkBlocks(s, path, lines);
    ScanStreamFromFold(acc, path, lines, r);
    if r.Ok? && |lines| % 4 != 0 {
      r := Ok(Warn(r.value, Truncated(path, 4 * (|lines| / 4) + 1)));
    }
  }

}
