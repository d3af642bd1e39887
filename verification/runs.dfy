/**
 Whole runs. The multi-file script folds every path of its list in order into
 one set of accumulators; the single-file script scans one file and stops with
 exit status 1 when it is missing.
 */
module Runs {
  import opened Text
  import opened PyInt
  import opened Aggregate
  import opened Blocks
  import opened Scan
  import opened ScanFacts

  /**
   The multi-file script from accumulators `acc`: each file in order, a
   missing one only warned about; the first crash ends the run.
   */
  function SummariseFrom(acc: Summary, files: seq<FileInput>): (r: Result<Summary>)
    ensures r.Ok? ==> acc.warnings <= r.value.warnings
    ensures r.Ok? ==> acc.students <= r.value.students
    ensures r.Crash? ==> ParseInt(r.info.token).None?
    ensures r.Crash? ==> exists f :: f in files && f.present && f.path == r.info.path
    decreases |files|
  {
    if files == [] then Ok(acc)
    else
      match SummariseFile(acc, files[0])
      case Crash(c) => Crash(c)
      case Ok(s) =>
        var r := SummariseFrom(s, files[1..]);
        assert r.Crash? ==> exists f :: f in files && f.present && f.path == r.info.path by {
          if r.Crash? {
            var f :| f in files[1..] && f.present && f.path == r.info.path;
            assert f in files;
          }
        }
        r
  }

  /** The multi-file script over the list `files`, from empty accumulators. */
  function SummariseAll(files: seq<FileInput>): (r: Result<Summary>)
    ensures r.Crash? ==> exists f :: f in files && f.present && f.path == r.info.path
  {
    SummariseFrom(Empty, files)
  }

  /** The four counters of a summary, without its warnings. */
  datatype Counts = Counts(students: nat, problems: set<int>, skills: set<int>, interactions: nat)

  const NoCounts := Counts(0, {}, {}, 0)

  function CountsOf(s: Summary): Counts {
    Counts(s.students, s.problems, s.skills, s.interactions)
  }

  function Plus(a: Counts, b: Counts): Counts {
    Counts(a.students + b.students, a.problems + b.problems, a.skills + b.skills, a.interactions + b.interactions)
  }

  /**
   What one file should add to the counters: nothing when it is missing;
   otherwise its complete blocks less those with a bad `seq_len`, and the ids
   and question-id tokens of the counted blocks.
   */
  ghost function FileCounts(f: FileInput): Counts {
    if !f.present then NoCounts
    else
      var lines := Stream(f.raw);
      var m := |lines| / 4;
      Counts(m - BadSeqLenCount(lines, m), QuestionIds(lines, m), SkillIds(lines, m), QuestionTotal(lines, m))
  }

  /** How many warnings of `kind` one file should give. */
  ghost function FileKindCount(f: FileInput, kind: Kind): nat {
    if !f.present then (if kind == MissingKind then 1 else 0)
    else FileTally(Stream(f.raw), kind)
  }

  /** A file does not crash the run: it is missing, or none of its blocks has a bad id token. */
  ghost predicate FileParses(f: FileInput) {
    f.present ==> NoCrash(Stream(f.raw), |Stream(f.raw)| / 4)
  }

  /** `p` holds of every element of `xs`. */
  predicate Every<T>(xs: seq<T>, p: T -> bool) {
    forall i :: 0 <= i < |xs| ==> p(xs[i])
  }

  /** `g` applied to every element of `xs`, in order. */
  function MapSeq<T, U>(xs: seq<T>, g: T -> U): (ys: seq<U>)
    ensures |ys| == |xs|
    ensures forall i :: 0 <= i < |xs| ==> ys[i] == g(xs[i])
  {
    seq(|xs|, i requires 0 <= i < |xs| => g(xs[i]))
  }

  lemma EveryFirst<T>(xs: seq<T>, p: T -> bool)
    requires xs != []
    ensures Every(xs, p) <==> p(xs[0]) && Every(xs[1..], p)
  {
    if p(xs[0]) && Every(xs[1..], p) {
      forall i | 0 <= i < |xs|
        ensures p(xs[i])
      {
        if i > 0 {
          assert xs[i] == xs[1..][i - 1];
        }
      }
    }
  }

  lemma EveryAppend<T>(xs: seq<T>, ys: seq<T>, p: T -> bool)
    ensures Every(xs + ys, p) <==> Every(xs, p) && Every(ys, p)
  {
    if Every(xs, p) && Every(ys, p) {
      forall i | 0 <= i < |xs + ys|
        ensures p((xs + ys)[i])
      {
        if i >= |xs| {
          assert (xs + ys)[i] == ys[i - |xs|];
        }
      }
    }
    if Every(xs + ys, p) {
      forall i | 0 <= i < |xs|
        ensures p(xs[i])
      {
        assert (xs + ys)[i] == xs[i];
      }
      forall i | 0 <= i < |ys|
        ensures p(ys[i])
      {
        assert (xs + ys)[|xs| + i] == ys[i];
      }
    }
  }

  lemma MapFirst<T, U>(xs: seq<T>, g: T -> U)
    requires xs != []
    ensures MapSeq(xs, g) == [g(xs[0])] + MapSeq(xs[1..], g)
  {
  }

  lemma MapAppend<T, U>(xs: seq<T>, ys: seq<T>, g: T -> U)
    ensures MapSeq(xs + ys, g) == MapSeq(xs, g) + MapSeq(ys, g)
  {
  }

  /** No file of the list crashes the run. */
  ghost predicate RunParses(files: seq<FileInput>) {
    Every(files, FileParses)
  }

  /** The counters of a list of contributions added up. */
  function Total(cs: seq<Counts>): Counts
    decreases |cs|
  {
    if cs == [] then NoCounts else Plus(cs[0], Total(cs[1..]))
  }

  /** A list of numbers added up. */
  function Sum(ns: seq<nat>): nat
    decreases |ns|
  {
    if ns == [] then 0 else ns[0] + Sum(ns[1..])
  }

  /** `FileKindCount` for a fixed kind, as a function of the file. */
  ghost function KindCounter(kind: Kind): FileInput -> nat {
    f => FileKindCount(f, kind)
  }

  /** What the files of the list should add to the counters, all together. */
  ghost function RunCounts(files: seq<FileInput>): Counts {
    Total(MapSeq(files, FileCounts))
  }

  /** How many warnings of `kind` the files of the list should give, all together. */
  ghost function RunTally(files: seq<FileInput>, kind: Kind): nat {
    Sum(MapSeq(files, KindCounter(kind)))
  }

  lemma PlusAssociative(a: Counts, b: Counts, c: Counts)
    ensures Plus(Plus(a, b), c) == Plus(a, Plus(b, c))
  {
    assert (a.problems + b.problems) + c.problems == a.problems + (b.problems + c.problems);
    assert (a.skills + b.skills) + c.skills == a.skills + (b.skills + c.skills);
  }

  lemma PlusZero(c: Counts)
    ensures Plus(NoCounts, c) == c && Plus(c, NoCounts) == c
  {
    assert {} + c.problems == c.problems && c.problems + {} == c.problems;
    assert {} + c.skills == c.skills && c.skills + {} == c.skills;
  }

  lemma {:induction false} TotalAppend(xs: seq<Counts>, ys: seq<Counts>)
    ensures Total(xs + ys) == Plus(Total(xs), Total(ys))
    decreases |xs|
  {
    if xs == [] {
      assert xs + ys == ys;
      PlusZero(Total(ys));
    } else {
      assert (xs + ys)[1..] == xs[1..] + ys;
      TotalAppend(xs[1..], ys);
      PlusAssociative(xs[0], Total(xs[1..]), Total(ys));
    }
  }

  lemma {:induction false} SumAppend(xs: seq<nat>, ys: seq<nat>)
    ensures Sum(xs + ys) == Sum(xs) + Sum(ys)
    decreases |xs|
  {
    if xs == [] {
      assert xs + ys == ys;
    } else {
      assert (xs + ys)[1..] == xs[1..] + ys;
      SumAppend(xs[1..], ys);
    }
  }

  /** The references of a non-empty list: its first file, then the rest. */
  lemma RunFirst(files: seq<FileInput>, kind: Kind)
    requires files != []
    ensures RunParses(files) <==> FileParses(files[0]) && RunParses(files[1..])
    ensures RunCounts(files) == Plus(FileCounts(files[0]), RunCounts(files[1..]))
    ensures RunTally(files, kind) == FileKindCount(files[0], kind) + RunTally(files[1..], kind)
  {
    EveryFirst(files, FileParses);
    MapFirst(files, FileCounts);
    MapFirst(files, KindCounter(kind));
    assert ([FileCounts(files[0])] + MapSeq(files[1..], FileCounts))[1..] == MapSeq(files[1..], FileCounts);
    assert ([KindCounter(kind)(files[0])] + MapSeq(files[1..], KindCounter(kind)))[1..] == MapSeq(files[1..], KindCounter(kind));
  }

  /** The references of a concatenation of lists. */
  lemma RunAppend(xs: seq<FileInput>, ys: seq<FileInput>, kind: Kind)
    ensures RunParses(xs + ys) <==> RunParses(xs) && RunParses(ys)
    ensures RunCounts(xs + ys) == Plus(RunCounts(xs), RunCounts(ys))
    ensures RunTally(xs + ys, kind) == RunTally(xs, kind) + RunTally(ys, kind)
  {
    EveryAppend(xs, ys, FileParses);
    MapAppend(xs, ys, FileCounts);
    MapAppend(xs, ys, KindCounter(kind));
    TotalAppend(MapSeq(xs, FileCounts), MapSeq(ys, FileCounts));
    SumAppend(MapSeq(xs, KindCounter(kind)), MapSeq(ys, KindCounter(kind)));
  }

  lemma RunStep(acc: Summary, files: seq<FileInput>)
    requires files != []
    ensures SummariseFrom(acc, files)
            == match SummariseFile(acc, files[0])
               case Crash(c) => Crash(c)
               case Ok(s) => SummariseFrom(s, files[1..])
  {
  }

  /** One file crashes exactly when it does not parse. */
  lemma FileOkStep(acc: Summary, f: FileInput)
    ensures SummariseFile(acc, f).Ok? <==> FileParses(f)
  {
    if f.present {
      FileTotals(acc, f);
    }
  }

  /** One file that does not crash adds its expected counts. */
  lemma FileCountsStep(acc: Summary, f: FileInput)
    ensures SummariseFile(acc, f).Ok? ==> CountsOf(SummariseFile(acc, f).value) == Plus(CountsOf(acc), FileCounts(f))
  {
    if f.present {
      PresentCountsStep(acc, f);
    } else {
      PlusZero(CountsOf(acc));
    }
  }

  lemma PresentCountsStep(acc: Summary, f: FileInput)
    requires f.present
    ensures SummariseFile(acc, f).Ok? ==> CountsOf(SummariseFile(acc, f).value) == Plus(CountsOf(acc), FileCounts(f))
  {
    FileTotals(acc, f);
    var r := SummariseFile(acc, f);
    if r.Ok? {
      var lines := Stream(f.raw);
      var m := |lines| / 4;
      var s := r.value;
      var c := FileCounts(f);
      assert c.students == m - BadSeqLenCount(lines, m);
      CountsFromFields(acc, s, c);
    }
  }

  lemma CountsFromFields(acc: Summary, s: Summary, c: Counts)
    requires s.students == acc.students + c.students
    requires s.problems == acc.problems + c.problems
    requires s.skills == acc.skills + c.skills
    requires s.interactions == acc.interactions + c.interactions
    ensures CountsOf(s) == Plus(CountsOf(acc), c)
  {
  }

  lemma FileTallyStep(acc: Summary, f: FileInput, kind: Kind)
    ensures SummariseFile(acc, f).Ok? ==>
              Tally(SummariseFile(acc, f).value.warnings[|acc.warnings|..], kind) == FileKindCount(f, kind)
  {
    if f.present {
      FileWarnings(acc, f, kind);
    } else {
      assert SummariseFile(acc, f).value.warnings[|acc.warnings|..] == [MissingFile(f.path)];
      TallySingle(MissingFile(f.path), kind);
    }
  }

  lemma TallySplit(a: seq<Warning>, b: seq<Warning>, c: seq<Warning>, kind: Kind)
    requires a <= b <= c
    ensures Tally(c[|a|..], kind) == Tally(b[|a|..], kind) + Tally(c[|b|..], kind)
  {
    assert c[|a|..] == b[|a|..] + c[|b|..];
    TallyAppend(b[|a|..], c[|b|..], kind);
  }

  /** A run completes exactly when no file has a bad id token in a counted block. */
  lemma {:induction false} RunOk(acc: Summary, files: seq<FileInput>)
    ensures SummariseFrom(acc, files).Ok? <==> RunParses(files)
    decreases |files|
  {
    if files != [] {
      RunStep(acc, files);
      RunFirst(files, MissingKind);
      FileOkStep(acc, files[0]);
      var r := SummariseFile(acc, files[0]);
      if r.Ok? {
        RunOk(r.value, files[1..]);
      }
    }
  }

  /** A completed run adds to each counter the sum of what its files should add. */
  lemma {:induction false} RunTotals(acc: Summary, files: seq<FileInput>)
    ensures SummariseFrom(acc, files).Ok? ==>
              CountsOf(SummariseFrom(acc, files).value) == Plus(CountsOf(acc), RunCounts(files))
    decreases |files|
  {
    if files == [] {
      PlusZero(CountsOf(acc));
    } else {
      RunStep(acc, files);
      RunFirst(files, MissingKind);
      FileCountsStep(acc, files[0]);
      var r := SummariseFile(acc, files[0]);
      if r.Ok? {
        RunTotals(r.value, files[1..]);
        PlusAssociative(CountsOf(acc), FileCounts(files[0]), RunCounts(files[1..]));
      }
    }
  }

  /** A completed run's warnings, by kind, are the sum of what its files should give. */
  lemma {:induction false} RunWarnings(acc: Summary, files: seq<FileInput>, kind: Kind)
    ensures SummariseFrom(acc, files).Ok? ==>
              Tally(SummariseFrom(acc, files).value.warnings[|acc.warnings|..], kind) == RunTally(files, kind)
    decreases |files|
  {
    if files == [] {
      assert acc.warnings[|acc.warnings|..] == [];
      assert MapSeq(files, KindCounter(kind)) == [];
    } else {
      RunStep(acc, files);
      RunFirst(files, kind);
      FileTallyStep(acc, files[0], kind);
      var r := SummariseFile(acc, files[0]);
      if r.Ok? {
        RunWarnings(r.value, files[1..], kind);
        var done := SummariseFrom(r.value, files[1..]);
        if done.Ok? {
          TallySplit(acc.warnings, r.value.warnings, done.value.warnings, kind);
          assert Tally(done.value.warnings[|acc.warnings|..], kind)
                 == FileKindCount(files[0], kind) + RunTally(files[1..], kind);
        }
      }
    }
  }

  /** The warnings one file should give, in order: a missing file gives its missing-file warning. */
  function FileWarningList(f: FileInput): seq<Warning> {
    if !f.present then [MissingFile(f.path)] else StreamWarnings(f.path, Stream(f.raw))
  }

  /** The warnings a list of files should give: each file's warnings, in list order. */
  function RunWarningList(files: seq<FileInput>): seq<Warning>
    decreases |files|
  {
    if files == [] then [] else FileWarningList(files[0]) + RunWarningList(files[1..])
  }

  /** One file that does not crash appends exactly its expected warnings. */
  lemma FileWarningListStep(acc: Summary, f: FileInput)
    ensures SummariseFile(acc, f).Ok? ==>
              SummariseFile(acc, f).value.warnings == acc.warnings + FileWarningList(f)
  {
    if f.present {
      ScanStreamWarningList(acc, f.path, Stream(f.raw));
    }
  }

  /**
   A completed run appends the warnings of its files in list order, each
   file's warnings in the order that file should give them.
   */
  lemma {:induction false} RunWarningOrder(acc: Summary, files: seq<FileInput>)
    ensures SummariseFrom(acc, files).Ok? ==>
              SummariseFrom(acc, files).value.warnings == acc.warnings + RunWarningList(files)
    decreases |files|
  {
    if files != [] {
      RunStep(acc, files);
      FileWarningListStep(acc, files[0]);
      var r := SummariseFile(acc, files[0]);
      if r.Ok? {
        RunWarningOrder(r.value, files[1..]);
        var done := SummariseFrom(r.value, files[1..]);
        if done.Ok? {
          var head := FileWarningList(files[0]);
          var rest := RunWarningList(files[1..]);
          assert RunWarningList(files) == head + rest;
          Regroup(acc.warnings, head, rest);
        }
      }
    }
  }

  /** The references of a list holding only a missing file. */
  lemma MissingAlone(m: FileInput, kind: Kind)
    requires !m.present
    ensures RunParses([m])
    ensures RunCounts([m]) == NoCounts
    ensures RunTally([m], kind) == if kind == MissingKind then 1 else 0
  {
    assert FileParses([m][0]);
    MissingAloneCounts(m);
    MissingAloneTally(m, kind);
  }

  lemma MissingAloneCounts(m: FileInput)
    requires !m.present
    ensures RunCounts([m]) == NoCounts
  {
    var cs := MapSeq([m], FileCounts);
    assert RunCounts([m]) == Total(cs);
    assert cs[0] == FileCounts(m) == NoCounts;
    assert cs[1..] == [];
    assert Total(cs) == Plus(NoCounts, Total([]));
    PlusZero(NoCounts);
  }

  lemma MissingAloneTally(m: FileInput, kind: Kind)
    requires !m.present
    ensures RunTally([m], kind) == if kind == MissingKind then 1 else 0
  {
    var ns := MapSeq([m], KindCounter(kind));
    assert RunTally([m], kind) == Sum(ns);
    assert |ns| == 1 && ns[0] == FileKindCount(m, kind);
    assert ns[1..] == [];
    assert Sum(ns) == ns[0] + Sum([]);
  }

  /** The references of a two-file list, file by file. */
  lemma RunPair(a: FileInput, b: FileInput, kind: Kind)
    ensures RunParses([a, b]) <==> FileParses(a) && FileParses(b)
    ensures RunTally([a, b], kind) == FileKindCount(a, kind) + FileKindCount(b, kind)
  {
    RunFirst([a, b], kind);
    assert [a, b][1..] == [b];
    RunFirst([b], kind);
    assert [b][1..] == [];
    assert MapSeq([], KindCounter(kind)) == [];
  }

  /**
   A missing path anywhere in the list only adds one missing-file warning:
   the run completes exactly when it does without that path, with the same
   counters and the same warnings of every other kind.
   */
  lemma MissingFileIsNeutral(xs: seq<FileInput>, m: FileInput, ys: seq<FileInput>, kind: Kind)
    requires !m.present
    ensures SummariseAll(xs + [m] + ys).Ok? <==> SummariseAll(xs + ys).Ok?
    ensures SummariseAll(xs + [m] + ys).Ok? && SummariseAll(xs + ys).Ok? ==>
              && CountsOf(SummariseAll(xs + [m] + ys).value) == CountsOf(SummariseAll(xs + ys).value)
              && Tally(SummariseAll(xs + [m] + ys).value.warnings, kind)
                 == Tally(SummariseAll(xs + ys).value.warnings, kind) + (if kind == MissingKind then 1 else 0)
  {
    var with := xs + [m] + ys;
    var without := xs + ys;
    MissingAlone(m, kind);
    RunAppend(xs + [m], ys, kind);
    RunAppend(xs, [m], kind);
    RunAppend(xs, ys, kind);
    PlusZero(RunCounts(xs));
    RunOk(Empty, with);
    RunOk(Empty, without);
    RunTotals(Empty, with);
    RunTotals(Empty, without);
    RunWarnings(Empty, with, kind);
    RunWarnings(Empty, without, kind);
    if SummariseAll(with).Ok? && SummariseAll(without).Ok? {
      assert SummariseAll(with).value.warnings[0..] == SummariseAll(with).value.warnings;
      assert SummariseAll(without).value.warnings[0..] == SummariseAll(without).value.warnings;
    }
  }

  /**
   The multi-file script as written: `train.txt` then `test.txt`. It
   completes exactly when neither file has a bad id token, and then holds one
   missing-file warning per missing file.
   */
  function StatsScript(train: FileInput, test: FileInput): (r: Result<Summary>)
    ensures r.Ok? <==> FileParses(train) && FileParses(test)
    ensures r.Ok? ==>
              Tally(r.value.warnings, MissingKind) == (if train.present then 0 else 1) + (if test.present then 0 else 1)
    ensures r.Ok? ==> r.value.warnings == FileWarningList(train) + FileWarningList(test)
  {
    var files := [train, test];
    RunOk(Empty, files);
    RunWarnings(Empty, files, MissingKind);
    RunWarningOrder(Empty, files);
    PairWarningList(train, test);
    RunPair(train, test, MissingKind);
    FileMissingTally(train);
    FileMissingTally(test);
    var r := SummariseAll(files);
    assert r.Ok? ==> r.value.warnings[0..] == r.value.warnings;
    r
  }

  lemma PairWarningList(a: FileInput, b: FileInput)
    ensures RunWarningList([a, b]) == FileWarningList(a) + FileWarningList(b)
  {
    assert [a, b][1..] == [b];
    assert [b][1..] == [];
    assert RunWarningList([b]) == FileWarningList(b) + [];
    assert RunWarningList([a, b]) == FileWarningList(a) + RunWarningList([b]);
  }

  /** An existing file never gives a missing-file warning. */
  lemma FileMissingTally(f: FileInput)
    ensures FileKindCount(f, MissingKind) == if f.present then 0 else 1
  {
  }

  /** How the single-file script ends. */
  datatype Outcome =
    | Completed(summary: Summary)
    | Aborted(crash: CrashInfo)
    | Exited(status: int)

  /** The outcome a run of the multi-file script's fold reaches. */
  function Finish(r: Result<Summary>): Outcome {
    match r
    case Ok(s) => Completed(s)
    case Crash(c) => Aborted(c)
  }

  /**
   The exit status the interpreter ends with: 0 after a completed run, 1
   after an uncaught exception (the `ValueError` of a bad id token), and the
   status given to `sys.exit` otherwise.
   */
  function ExitStatus(o: Outcome): int {
    match o
    case Completed(_) => 0
    case Aborted(_) => 1
    case Exited(status) => status
  }

  /** The multi-file script exits with status 0 exactly when neither file has a bad id token, and 1 otherwise. */
  lemma StatsScriptStatus(train: FileInput, test: FileInput)
    ensures ExitStatus(Finish(StatsScript(train, test))) == if FileParses(train) && FileParses(test) then 0 else 1
  {
  }

  /**
   The single-file script: a missing file stops it with exit status 1 before
   anything is counted; otherwise the file is scanned from empty accumulators,
   and a bad id token also ends it with status 1.
   */
  function TrainOnly(f: FileInput): (o: Outcome)
    ensures o.Exited? <==> !f.present
    ensures o.Exited? ==> o.status == 1
    ensures ExitStatus(o) == 0 <==> f.present && FileParses(f)
    ensures ExitStatus(o) == 0 || ExitStatus(o) == 1
    ensures o.Completed? ==> Tally(o.summary.warnings, MissingKind) == 0
    ensures o.Completed? ==> o.summary.warnings == StreamWarnings(f.path, Stream(f.raw))
  {
    if !f.present then Exited(1)
    else
      FileOkStep(Empty, f);
      FileWarningListStep(Empty, f);
      FileWarnings(Empty, f, MissingKind);
      var r := SummariseFile(Empty, f);
      assert r.Ok? ==> r.value.warnings[0..] == r.value.warnings;
      Finish(r)
  }

  /** For an existing file the single-file script ends as the multi-file fold over `[f]` does. */
  lemma TrainOnlyMatchesStats(f: FileInput)
    requires f.present
    ensures TrainOnly(f) == Finish(SummariseAll([f]))
  {
    RunStep(Empty, [f]);
    assert [f][1..] == [];
  }

  /**
   The single-file script's counters: one student per complete block except
   those with a bad `seq_len`, and the question-id tokens of the counted
   blocks as interactions.
   */
  lemma TrainOnlyTotals(f: FileInput)
    requires f.present
    ensures var lines := Stream(f.raw);
            var m := |lines| / 4;
            && (TrainOnly(f).Aborted? <==> !NoCrash(lines, m))
            && (TrainOnly(f).Completed? ==>
                  && TrainOnly(f).summary.students == m - BadSeqLenCount(lines, m)
                  && TrainOnly(f).summary.interactions == QuestionTotal(lines, m)
                  && TrainOnly(f).summary.problems == QuestionIds(lines, m)
                  && TrainOnly(f).summary.skills == SkillIds(lines, m))
  {
    FileTotals(Empty, f);
  }

  /** The single-file script's warnings, by kind, are those its line stream should give. */
  lemma TrainOnlyWarnings(f: FileInput, kind: Kind)
    requires f.present
    ensures TrainOnly(f).Completed? ==> Tally(TrainOnly(f).summary.warnings, kind) == FileTally(Stream(f.raw), kind)
  {
    FileWarnings(Empty, f, kind);
    var r := SummariseFile(Empty, f);
    assert r.Ok? ==> r.value.warnings[0..] == r.value.warnings;
  }

}
