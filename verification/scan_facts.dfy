/**
 What one file contributes, stated against the layout of its line stream
 rather than against the scan: which blocks are skipped, which are counted,
 what they add, and which warnings come out.
 */
module ScanFacts {
  import opened Text
  import opened PyInt
  import opened Aggregate
  import opened Blocks
  import opened Scan

  /** Among the first `k` blocks, those whose `seq_len` is not an integer. */
  ghost function BadSeqLenCount(lines: seq<string>, k: nat): (n: nat)
    requires 4 * k <= |lines|
    ensures n <= k
    decreases k
  {
    if k == 0 then 0
    else BadSeqLenCount(lines, k - 1) + (if Counted(lines, k - 1) then 0 else 1)
  }

  /** Among the first `k` blocks, the counted ones whose lengths disagree. */
  ghost function MismatchCount(lines: seq<string>, k: nat): nat
    requires 4 * k <= |lines|
    decreases k
  {
    if k == 0 then 0
    else MismatchCount(lines, k - 1) + (if Mismatched(lines, k - 1) then 1 else 0)
  }

  /** The number of question-id tokens of the counted blocks among the first `k`. */
  ghost function QuestionTotal(lines: seq<string>, k: nat): nat
    requires 4 * k <= |lines|
    decreases k
  {
    if k == 0 then 0
    else QuestionTotal(lines, k - 1) + (if Counted(lines, k - 1) then |Tokens(QuestionLine(lines, k - 1))| else 0)
  }

  lemma BadSeqLenStep(lines: seq<string>, k: nat)
    requires 4 * k + 4 <= |lines|
    ensures BadSeqLenCount(lines, k + 1) == BadSeqLenCount(lines, k) + (if Counted(lines, k) then 0 else 1)
  {
  }

  lemma MismatchStep(lines: seq<string>, k: nat)
    requires 4 * k + 4 <= |lines|
    ensures MismatchCount(lines, k + 1) == MismatchCount(lines, k) + (if Mismatched(lines, k) then 1 else 0)
  {
  }

  lemma QuestionTotalStep(lines: seq<string>, k: nat)
    requires 4 * k + 4 <= |lines|
    ensures QuestionTotal(lines, k + 1)
            == QuestionTotal(lines, k) + (if Counted(lines, k) then |Tokens(QuestionLine(lines, k))| else 0)
  {
  }

  /** The question ids named by the counted blocks among the first `k`. */
  ghost function QuestionIds(lines: seq<string>, k: nat): set<int>
    requires 4 * k <= |lines|
  {
    set j, v | 0 <= j < k && Counted(lines, j) && v in IdSet(Tokens(QuestionLine(lines, j))) :: v
  }

  /** The skill ids named by the counted blocks among the first `k`. */
  ghost function SkillIds(lines: seq<string>, k: nat): set<int>
    requires 4 * k <= |lines|
  {
    set j, v | 0 <= j < k && Counted(lines, j) && v in IdSet(Tokens(SkillLine(lines, j))) :: v
  }

  /** None of the first `k` blocks makes `int(x)` raise. */
  ghost predicate NoCrash(lines: seq<string>, k: nat)
    requires 4 * k <= |lines|
  {
    forall j :: 0 <= j < k ==> BlockParses(lines, j)
  }

  lemma NoCrashStep(lines: seq<string>, k: nat)
    requires 4 * k + 4 <= |lines|
    ensures NoCrash(lines, k + 1) <==> NoCrash(lines, k) && BlockParses(lines, k)
  {
  }

  lemma QuestionIdsStep(lines: seq<string>, k: nat)
    requires 4 * k + 4 <= |lines|
    ensures QuestionIds(lines, k + 1)
            == QuestionIds(lines, k) + (if Counted(lines, k) then IdSet(Tokens(QuestionLine(lines, k))) else {})
  {
    var extra := if Counted(lines, k) then IdSet(Tokens(QuestionLine(lines, k))) else {};
    var lo := QuestionIds(lines, k);
    var hi := QuestionIds(lines, k + 1);
    forall v | v in hi
      ensures v in lo || v in extra
    {
      var j :| 0 <= j < k + 1 && Counted(lines, j) && v in IdSet(Tokens(QuestionLine(lines, j)));
      if j < k {
        assert v in lo;
      } else {
        assert j == k;
      }
    }
    forall v | v in lo
      ensures v in hi
    {
      var j :| 0 <= j < k && Counted(lines, j) && v in IdSet(Tokens(QuestionLine(lines, j)));
      assert 0 <= j < k + 1;
    }
    forall v | v in extra
      ensures v in hi
    {
      assert 0 <= k < k + 1 && Counted(lines, k);
    }
  }


  lemma SkillIdsStep(lines: seq<string>, k: nat)
    requires 4 * k + 4 <= |lines|
    ensures SkillIds(lines, k + 1)
            == SkillIds(lines, k) + (if Counted(lines, k) then IdSet(Tokens(SkillLine(lines, k))) else {})
  {
    var extra := if Counted(lines, k) then IdSet(Tokens(SkillLine(lines, k))) else {};
    var lo := SkillIds(lines, k);
    var hi := SkillIds(lines, k + 1);
    forall v | v in hi
      ensures v in lo || v in extra
    {
      var j :| 0 <= j < k + 1 && Counted(lines, j) && v in IdSet(Tokens(SkillLine(lines, j)));
      if j < k {
        assert v in lo;
      } else {
        assert j == k;
      }
    }
    forall v | v in lo
      ensures v in hi
    {
      var j :| 0 <= j < k && Counted(lines, j) && v in IdSet(Tokens(SkillLine(lines, j)));
      assert 0 <= j < k + 1;
    }
    forall v | v in extra
      ensures v in hi
    {
      assert 0 <= k < k + 1 && Counted(lines, k);
    }
  }


  /** One more block: the fold goes on exactly when both the prefix and the new block succeed. */
  lemma FoldStep(acc: Summary, path: string, lines: seq<string>, k: nat)
    requires 4 * k + 4 <= |lines|
    ensures FoldBlocks(acc, path, lines, k + 1).Ok?
            <==> FoldBlocks(acc, path, lines, k).Ok? && BlockEffect(path, lines, k).Ok?
    ensures FoldBlocks(acc, path, lines, k + 1).Ok? ==>
              FoldBlocks(acc, path, lines, k + 1).value
              == Combine(FoldBlocks(acc, path, lines, k).value, BlockEffect(path, lines, k).value)
  {
  }

  /** How many warnings of `kind` block `k` should give on its own. */
  ghost function BlockKindCount(lines: seq<string>, k: nat, kind: Kind): nat
    requires HasBlock(lines, k)
  {
    if kind == SeqLenKind && !Counted(lines, k) then 1
    else if kind == MismatchKind && Mismatched(lines, k) then 1
    else 0
  }

  lemma SkippedBlockTally(path: string, lines: seq<string>, k: nat, kind: Kind)
    requires HasBlock(lines, k) && !Counted(lines, k)
    ensures Tally(BlockEffect(path, lines, k).value.warnings, kind) == BlockKindCount(lines, k, kind)
  {
    var w := BlockEffect(path, lines, k).value.warnings;
    assert w == [BadSeqLen(path, SeqLenLine(lines, k), 4 * k + 1)];
    TallySingle(w[0], kind);
  }

  lemma MismatchedBlockWarns(path: string, lines: seq<string>, k: nat)
    requires HasBlock(lines, k) && Mismatched(lines, k) && BlockEffect(path, lines, k).Ok?
    ensures |BlockEffect(path, lines, k).value.warnings| == 1
    ensures BlockEffect(path, lines, k).value.warnings[0].Mismatch?
  {
  }

  lemma TallyOneMismatch(w: seq<Warning>, kind: Kind)
    requires |w| == 1 && w[0].Mismatch?
    ensures Tally(w, kind) == if kind == MismatchKind then 1 else 0
  {
    assert w == [w[0]];
    TallySingle(w[0], kind);
  }

  lemma MismatchedBlockTally(path: string, lines: seq<string>, k: nat, kind: Kind)
    requires HasBlock(lines, k) && Mismatched(lines, k) && BlockEffect(path, lines, k).Ok?
    ensures Tally(BlockEffect(path, lines, k).value.warnings, kind) == BlockKindCount(lines, k, kind)
  {
    MismatchedBlockWarns(path, lines, k);
    TallyOneMismatch(BlockEffect(path, lines, k).value.warnings, kind);
  }

  lemma CleanBlockTally(path: string, lines: seq<string>, k: nat, kind: Kind)
    requires HasBlock(lines, k) && Counted(lines, k) && !Mismatched(lines, k) && BlockEffect(path, lines, k).Ok?
    ensures Tally(BlockEffect(path, lines, k).value.warnings, kind) == BlockKindCount(lines, k, kind)
  {
    assert BlockEffect(path, lines, k).value.warnings == [];
  }

  /** The warnings one block gives, by kind. */
  lemma BlockWarningTally(path: string, lines: seq<string>, k: nat, kind: Kind)
    requires HasBlock(lines, k) && BlockEffect(path, lines, k).Ok?
    ensures Tally(BlockEffect(path, lines, k).value.warnings, kind) == BlockKindCount(lines, k, kind)
  {
    if !Counted(lines, k) {
      SkippedBlockTally(path, lines, k, kind);
    } else if Mismatched(lines, k) {
      MismatchedBlockTally(path, lines, k, kind);
    } else {
      CleanBlockTally(path, lines, k, kind);
    }
  }

  /** Every warning of `ws` names `path`. */
  predicate AllAbout(ws: seq<Warning>, path: string) {
    forall i :: 0 <= i < |ws| ==> ws[i].path == path
  }

  lemma AllAboutAppend(a: seq<Warning>, b: seq<Warning>, w: seq<Warning>, path: string)
    requires a <= b && AllAbout(b[|a|..], path) && AllAbout(w, path)
    ensures AllAbout((b + w)[|a|..], path)
  {
    assert (b + w)[|a|..] == b[|a|..] + w;
  }

  lemma AppendedTally(a: seq<Warning>, b: seq<Warning>, w: seq<Warning>, kind: Kind)
    requires a <= b
    ensures Tally((b + w)[|a|..], kind) == Tally(b[|a|..], kind) + Tally(w, kind)
  {
    assert (b + w)[|a|..] == b[|a|..] + w;
    TallyAppend(b[|a|..], w, kind);
  }

  // One block more, projected on each accumulator: these are the only
  // lemmas of the fold that look inside a block's contribution.

  lemma StepOk(acc: Summary, path: string, lines: seq<string>, k: nat)
    requires 4 * k + 4 <= |lines|
    ensures FoldBlocks(acc, path, lines, k + 1).Ok? <==> FoldBlocks(acc, path, lines, k).Ok? && BlockParses(lines, k)
  {
    FoldStep(acc, path, lines, k);
  }

  lemma StepStudents(acc: Summary, path: string, lines: seq<string>, k: nat)
    requires 4 * k + 4 <= |lines|
    ensures FoldBlocks(acc, path, lines, k + 1).Ok? ==>
              && FoldBlocks(acc, path, lines, k).Ok?
              && FoldBlocks(acc, path, lines, k + 1).value.students
                 == FoldBlocks(acc, path, lines, k).value.students + (if Counted(lines, k) then 1 else 0)
  {
    FoldStep(acc, path, lines, k);
  }

  lemma StepInteractions(acc: Summary, path: string, lines: seq<string>, k: nat)
    requires 4 * k + 4 <= |lines|
    ensures FoldBlocks(acc, path, lines, k + 1).Ok? ==>
              && FoldBlocks(acc, path, lines, k).Ok?
              && FoldBlocks(acc, path, lines, k + 1).value.interactions
                 == FoldBlocks(acc, path, lines, k).value.interactions
                    + (if Counted(lines, k) then |Tokens(QuestionLine(lines, k))| else 0)
  {
    FoldStep(acc, path, lines, k);
  }

  lemma StepProblems(acc: Summary, path: string, lines: seq<string>, k: nat)
    requires 4 * k + 4 <= |lines|
    ensures FoldBlocks(acc, path, lines, k + 1).Ok? ==>
              && FoldBlocks(acc, path, lines, k).Ok?
              && FoldBlocks(acc, path, lines, k + 1).value.problems
                 == FoldBlocks(acc, path, lines, k).value.problems
                    + (if Counted(lines, k) then IdSet(Tokens(QuestionLine(lines, k))) else {})
  {
    FoldStep(acc, path, lines, k);
  }

  lemma StepSkills(acc: Summary, path: string, lines: seq<string>, k: nat)
    requires 4 * k + 4 <= |lines|
    ensures FoldBlocks(acc, path, lines, k + 1).Ok? ==>
              && FoldBlocks(acc, path, lines, k).Ok?
              && FoldBlocks(acc, path, lines, k + 1).value.skills
                 == FoldBlocks(acc, path, lines, k).value.skills
                    + (if Counted(lines, k) then IdSet(Tokens(SkillLine(lines, k))) else {})
  {
    FoldStep(acc, path, lines, k);
  }

  lemma StepTally(acc: Summary, path: string, lines: seq<string>, k: nat, kind: Kind)
    requires 4 * k + 4 <= |lines|
    ensures FoldBlocks(acc, path, lines, k + 1).Ok? ==>
              && FoldBlocks(acc, path, lines, k).Ok?
              && Tally(FoldBlocks(acc, path, lines, k + 1).value.warnings[|acc.warnings|..], kind)
                 == Tally(FoldBlocks(acc, path, lines, k).value.warnings[|acc.warnings|..], kind)
                    + BlockKindCount(lines, k, kind)
  {
    FoldStep(acc, path, lines, k);
    var r := FoldBlocks(acc, path, lines, k);
    var e := BlockEffect(path, lines, k);
    if r.Ok? && e.Ok? {
      BlockWarningTally(path, lines, k, kind);
      AppendedTally(acc.warnings, r.value.warnings, e.value.warnings, kind);
    }
  }

  lemma StepPaths(acc: Summary, path: string, lines: seq<string>, k: nat)
    requires 4 * k + 4 <= |lines|
    ensures FoldBlocks(acc, path, lines, k + 1).Ok? ==>
              && FoldBlocks(acc, path, lines, k).Ok?
              && (AllAbout(FoldBlocks(acc, path, lines, k).value.warnings[|acc.warnings|..], path)
                  ==> AllAbout(FoldBlocks(acc, path, lines, k + 1).value.warnings[|acc.warnings|..], path))
  {
    FoldStep(acc, path, lines, k);
    var r := FoldBlocks(acc, path, lines, k);
    var e := BlockEffect(path, lines, k);
    if r.Ok? && e.Ok? && AllAbout(r.value.warnings[|acc.warnings|..], path) {
      AllAboutAppend(acc.warnings, r.value.warnings, e.value.warnings, path);
    }
  }

  /** Folding the first `k` blocks crashes exactly when one of them has a bad id token. */
  lemma {:induction false} FoldOk(acc: Summary, path: string, lines: seq<string>, k: nat)
    requires 4 * k <= |lines|
    ensures FoldBlocks(acc, path, lines, k).Ok? <==> NoCrash(lines, k)
    decreases k
  {
    if k > 0 {
      var j := k - 1;
      FoldOk(acc, path, lines, j);
      StepOk(acc, path, lines, j);
      NoCrashStep(lines, j);
    }
  }

  /** Every block is counted as a student except those with a bad `seq_len`. */
  lemma {:induction false} FoldStudents(acc: Summary, path: string, lines: seq<string>, k: nat)
    requires 4 * k <= |lines|
    ensures FoldBlocks(acc, path, lines, k).Ok? ==>
              FoldBlocks(acc, path, lines, k).value.students + BadSeqLenCount(lines, k) == acc.students + k
    decreases k
  {
    if k > 0 {
      var j := k - 1;
      FoldStudents(acc, path, lines, j);
      StepStudents(acc, path, lines, j);
      BadSeqLenStep(lines, j);
    }
  }

  /**
   The interaction total grows by the number of question-id tokens of every
   counted block, whether or not its lengths agree.
   */
  lemma {:induction false} FoldInteractions(acc: Summary, path: string, lines: seq<string>, k: nat)
    requires 4 * k <= |lines|
    ensures FoldBlocks(acc, path, lines, k).Ok? ==>
              FoldBlocks(acc, path, lines, k).value.interactions == acc.interactions + QuestionTotal(lines, k)
    decreases k
  {
    if k > 0 {
      var j := k - 1;
      FoldInteractions(acc, path, lines, j);
      StepInteractions(acc, path, lines, j);
      QuestionTotalStep(lines, j);
    }
  }

  /** The problem set gains exactly the question ids of the counted blocks. */
  lemma {:induction false} FoldProblems(acc: Summary, path: string, lines: seq<string>, k: nat)
    requires 4 * k <= |lines|
    ensures FoldBlocks(acc, path, lines, k).Ok? ==>
              FoldBlocks(acc, path, lines, k).value.problems == acc.problems + QuestionIds(lines, k)
    decreases k
  {
    if k == 0 {
      assert QuestionIds(lines, 0) == {};
    } else {
      var j := k - 1;
      FoldProblems(acc, path, lines, j);
      StepProblems(acc, path, lines, j);
      QuestionIdsStep(lines, j);
      var extra := if Counted(lines, j) then IdSet(Tokens(QuestionLine(lines, j))) else {};
      if FoldBlocks(acc, path, lines, k).Ok? {
        SetStep(acc.problems, FoldBlocks(acc, path, lines, j).value.problems, FoldBlocks(acc, path, lines, k).value.problems,
                QuestionIds(lines, j), QuestionIds(lines, k), extra);
      }
    }
  }

  /** The skill set gains exactly the skill ids of the counted blocks. */
  lemma {:induction false} FoldSkills(acc: Summary, path: string, lines: seq<string>, k: nat)
    requires 4 * k <= |lines|
    ensures FoldBlocks(acc, path, lines, k).Ok? ==>
              FoldBlocks(acc, path, lines, k).value.skills == acc.skills + SkillIds(lines, k)
    decreases k
  {
    if k == 0 {
      assert SkillIds(lines, 0) == {};
    } else {
      var j := k - 1;
      FoldSkills(acc, path, lines, j);
      StepSkills(acc, path, lines, j);
      SkillIdsStep(lines, j);
      var extra := if Counted(lines, j) then IdSet(Tokens(SkillLine(lines, j))) else {};
      if FoldBlocks(acc, path, lines, k).Ok? {
        SetStep(acc.skills, FoldBlocks(acc, path, lines, j).value.skills, FoldBlocks(acc, path, lines, k).value.skills,
                SkillIds(lines, j), SkillIds(lines, k), extra);
      }
    }
  }

  /** How many warnings of `kind` the first `k` blocks should give. */
  ghost function BlockTally(lines: seq<string>, k: nat, kind: Kind): nat
    requires 4 * k <= |lines|
  {
    match kind
    case SeqLenKind => BadSeqLenCount(lines, k)
    case MismatchKind => MismatchCount(lines, k)
    case _ => 0
  }

  /** How the expected tally grows by one block. */
  lemma BlockTallyStep(lines: seq<string>, k: nat, kind: Kind)
    requires 4 * k + 4 <= |lines|
    ensures BlockTally(lines, k + 1, kind) == BlockTally(lines, k, kind) + BlockKindCount(lines, k, kind)
  {
    BadSeqLenStep(lines, k);
    MismatchStep(lines, k);
  }

  /**
   The warnings the fold of `k` blocks appends: one per block with a bad
   `seq_len`, one per mismatch, and nothing else.
   */
  lemma {:induction false} FoldWarnings(acc: Summary, path: string, lines: seq<string>, k: nat, kind: Kind)
    requires 4 * k <= |lines|
    ensures FoldBlocks(acc, path, lines, k).Ok? ==>
              Tally(FoldBlocks(acc, path, lines, k).value.warnings[|acc.warnings|..], kind) == BlockTally(lines, k, kind)
    decreases k
  {
    if k == 0 {
      assert acc.warnings[|acc.warnings|..] == [];
      assert FoldBlocks(acc, path, lines, k).Ok? ==>
              Tally(FoldBlocks(acc, path, lines, k).value.warnings[|acc.warnings|..], kind) == BlockTally(lines, k, kind);
    } else {
      var j := k - 1;
      FoldWarnings(acc, path, lines, j, kind);
      StepTally(acc, path, lines, j, kind);
      BlockTallyStep(lines, j, kind);
      assert FoldBlocks(acc, path, lines, k).Ok? ==>
              Tally(FoldBlocks(acc, path, lines, k).value.warnings[|acc.warnings|..], kind) == BlockTally(lines, k, kind);
    }
  }

  /** Every warning the fold appends names the file. */
  lemma {:induction false} FoldWarningPaths(acc: Summary, path: string, lines: seq<string>, k: nat)
    requires 4 * k <= |lines|
    ensures FoldBlocks(acc, path, lines, k).Ok? ==>
              AllAbout(FoldBlocks(acc, path, lines, k).value.warnings[|acc.warnings|..], path)
    decreases k
  {
    if k > 0 {
      var j := k - 1;
      FoldWarningPaths(acc, path, lines, j);
      StepPaths(acc, path, lines, j);
    }
  }

  /**
   The warning block `j` should give on its own, read off the layout: one
   for a `seq_len` that is not an integer, naming the block's first line;
   one for a counted block whose lengths disagree; none otherwise.
   */
  function BlockWarning(path: string, lines: seq<string>, j: nat): seq<Warning>
    requires HasBlock(lines, j)
  {
    if !Counted(lines, j) then [BadSeqLen(path, SeqLenLine(lines, j), 4 * j + 1)]
    else if Mismatched(lines, j) then
      [Mismatch(path, 4 * j + 1, ParseInt(SeqLenLine(lines, j)).value,
                |Tokens(QuestionLine(lines, j))|, |Tokens(SkillLine(lines, j))|,
                |Tokens(ResponseLine(lines, j))|)]
    else []
  }

  /** The warnings the first `k` blocks should give, in block order. */
  function BlockWarnings(path: string, lines: seq<string>, k: nat): seq<Warning>
    requires 4 * k <= |lines|
    decreases k
  {
    if k == 0 then [] else BlockWarnings(path, lines, k - 1) + BlockWarning(path, lines, k - 1)
  }

  lemma BlockWarningsStep(path: string, lines: seq<string>, j: nat)
    requires 4 * j + 4 <= |lines|
    ensures BlockWarnings(path, lines, j + 1) == BlockWarnings(path, lines, j) + BlockWarning(path, lines, j)
  {
  }

  /** A block that does not crash gives exactly its expected warning. */
  lemma BlockEffectWarning(path: string, lines: seq<string>, j: nat)
    requires HasBlock(lines, j) && BlockEffect(path, lines, j).Ok?
    ensures BlockEffect(path, lines, j).value.warnings == BlockWarning(path, lines, j)
  {
  }

  lemma StepWarningList(acc: Summary, path: string, lines: seq<string>, k: nat)
    requires 4 * k + 4 <= |lines|
    ensures FoldBlocks(acc, path, lines, k + 1).Ok? ==>
              && FoldBlocks(acc, path, lines, k).Ok?
              && FoldBlocks(acc, path, lines, k + 1).value.warnings
                 == FoldBlocks(acc, path, lines, k).value.warnings + BlockWarning(path, lines, k)
  {
    FoldStep(acc, path, lines, k);
    if FoldBlocks(acc, path, lines, k + 1).Ok? {
      BlockEffectWarning(path, lines, k);
    }
  }

  /**
   The fold of `k` blocks appends exactly the blocks' expected warnings, in
   block order, after those already held.
   */
  lemma {:induction false} FoldWarningList(acc: Summary, path: string, lines: seq<string>, k: nat)
    requires 4 * k <= |lines|
    ensures FoldBlocks(acc, path, lines, k).Ok? ==>
              FoldBlocks(acc, path, lines, k).value.warnings == acc.warnings + BlockWarnings(path, lines, k)
    decreases k
  {
    if k > 0 {
      var j := k - 1;
      FoldWarningList(acc, path, lines, j);
      StepWarningList(acc, path, lines, j);
      BlockWarningsStep(path, lines, j);
      if FoldBlocks(acc, path, lines, k).Ok? {
        var w := FoldBlocks(acc, path, lines, j).value.warnings;
        var bs := BlockWarnings(path, lines, j);
        var b := BlockWarning(path, lines, j);
        assert FoldBlocks(acc, path, lines, k).value.warnings == w + b;
        assert w + b == acc.warnings + (bs + b);
      }
    }
  }

  lemma BlockWarningPath(path: string, lines: seq<string>, j: nat)
    requires HasBlock(lines, j)
    ensures AllAbout(BlockWarning(path, lines, j), path)
  {
  }

  lemma AllAboutConcat(a: seq<Warning>, b: seq<Warning>, path: string)
    requires AllAbout(a, path) && AllAbout(b, path)
    ensures AllAbout(a + b, path)
  {
  }

  /** Every expected block warning names the file. */
  lemma {:induction false} BlockWarningsPaths(path: string, lines: seq<string>, k: nat)
    requires 4 * k <= |lines|
    ensures AllAbout(BlockWarnings(path, lines, k), path)
    decreases k
  {
    if k > 0 {
      var j := k - 1;
      BlockWarningsPaths(path, lines, j);
      BlockWarningsStep(path, lines, j);
      BlockWarningPath(path, lines, j);
      AllAboutConcat(BlockWarnings(path, lines, j), BlockWarning(path, lines, j), path);
    }
  }

  /**
   An existing file contributes, on top of any accumulators: a crash exactly
   when a counted block has a bad id token (the crash naming the file and an
   unparseable token); otherwise `n / 4` students minus the blocks with a bad
   `seq_len`, the question-id tokens of the counted blocks as interactions,
   and their question and skill ids.
   */
  lemma FileTotals(acc: Summary, f: FileInput)
    requires f.present
    ensures var lines := Stream(f.raw);
            var m := |lines| / 4;
            var r := SummariseFile(acc, f);
            && (r.Ok? <==> NoCrash(lines, m))
            && (r.Crash? ==> r.info.path == f.path && ParseInt(r.info.token).None?)
            && (r.Ok? ==>
                  && r.value.students + BadSeqLenCount(lines, m) == acc.students + m
                  && r.value.interactions == acc.interactions + QuestionTotal(lines, m)
                  && r.value.problems == acc.problems + QuestionIds(lines, m)
                  && r.value.skills == acc.skills + SkillIds(lines, m))
  {
    var lines := Stream(f.raw);
    var start := Prelude(acc, f.path, lines);
    var m := |lines| / 4;
    FoldOk(start, f.path, lines, m);
    FoldStudents(start, f.path, lines, m);
    FoldInteractions(start, f.path, lines, m);
    FoldProblems(start, f.path, lines, m);
    FoldSkills(start, f.path, lines, m);
    ScanStreamFromFold(acc, f.path, lines, FoldBlocks(start, f.path, lines, m));
  }

  /**
   How many warnings of `kind` an existing file whose line stream is `lines`
   should give: one line-count and one truncation warning exactly when the
   stream length is not a multiple of 4, plus what its complete blocks give.
   */
  ghost function FileTally(lines: seq<string>, kind: Kind): nat {
    match kind
    case LineCountKind => if |lines| % 4 != 0 then 1 else 0
    case TruncatedKind => if |lines| % 4 != 0 then 1 else 0
    case _ => BlockTally(lines, |lines| / 4, kind)
  }

  /** The warning the scan emits before the first block of a stream of `n` lines, if any. */
  function Opening(path: string, n: nat): seq<Warning> {
    if n % 4 != 0 then [BadLineCount(path, n)] else []
  }

  /** The warning the scan emits after the last complete block of a stream of `n` lines, if any. */
  function Closing(path: string, n: nat): seq<Warning> {
    if n % 4 != 0 then [Truncated(path, 4 * (n / 4) + 1)] else []
  }

  /** The warnings the scan appends: the opening warning, those of the blocks, the closing warning. */
  lemma ScanStreamParts(acc: Summary, path: string, lines: seq<string>)
    ensures var start := Prelude(acc, path, lines);
            var folded := FoldBlocks(start, path, lines, |lines| / 4);
            var r := ScanStream(acc, path, lines);
            && start.warnings == acc.warnings + Opening(path, |lines|)
            && (r.Ok? <==> folded.Ok?)
            && (r.Ok? ==> r.value.warnings == folded.value.warnings + Closing(path, |lines|))
  {
    PreludeWarnings(acc, path, lines);
    ClosingWarnings(acc, path, lines, FoldBlocks(Prelude(acc, path, lines), path, lines, |lines| / 4));
  }

  lemma PreludeWarnings(acc: Summary, path: string, lines: seq<string>)
    ensures Prelude(acc, path, lines).warnings == acc.warnings + Opening(path, |lines|)
  {
  }

  lemma ClosingWarnings(acc: Summary, path: string, lines: seq<string>, folded: Result<Summary>)
    requires folded == FoldBlocks(Prelude(acc, path, lines), path, lines, |lines| / 4)
    ensures ScanStream(acc, path, lines).Ok? <==> folded.Ok?
    ensures ScanStream(acc, path, lines).Ok? ==>
              ScanStream(acc, path, lines).value.warnings == folded.value.warnings + Closing(path, |lines|)
  {
    ScanStreamFromFold(acc, path, lines, folded);
  }

  /**
   The warnings an existing file whose line stream is `lines` should give,
   in order: the line-count warning, those of the complete blocks, the
   truncation warning.
   */
  function StreamWarnings(path: string, lines: seq<string>): seq<Warning> {
    Opening(path, |lines|) + BlockWarnings(path, lines, |lines| / 4) + Closing(path, |lines|)
  }

  /** A scan that completes appends exactly the stream's expected warnings, in order. */
  lemma ScanStreamWarningList(acc: Summary, path: string, lines: seq<string>)
    ensures ScanStream(acc, path, lines).Ok? ==>
              ScanStream(acc, path, lines).value.warnings == acc.warnings + StreamWarnings(path, lines)
  {
    var start := Prelude(acc, path, lines);
    var m := |lines| / 4;
    var folded := FoldBlocks(start, path, lines, m);
    ScanStreamParts(acc, path, lines);
    FoldWarningList(start, path, lines, m);
    if folded.Ok? {
      var pre := Opening(path, |lines|);
      var mid := BlockWarnings(path, lines, m);
      var post := Closing(path, |lines|);
      assert start.warnings == acc.warnings + pre;
      assert folded.value.warnings == start.warnings + mid;
      assert ScanStream(acc, path, lines).value.warnings == folded.value.warnings + post;
      Regroup(acc.warnings, pre, mid);
      Regroup(acc.warnings, pre + mid, post);
    }
  }

  /** What is appended after `a` by `pre`, then by the rest of `b`, then by `post`. */
  lemma Appended(a: seq<Warning>, pre: seq<Warning>, b: seq<Warning>, post: seq<Warning>)
    requires a + pre <= b
    ensures (b + post)[|a|..] == pre + b[|a + pre|..] + post
  {
  }

  lemma TallyParts(pre: seq<Warning>, mid: seq<Warning>, post: seq<Warning>, kind: Kind)
    ensures Tally(pre + mid + post, kind) == Tally(pre, kind) + Tally(mid, kind) + Tally(post, kind)
  {
    TallyAppend(pre, mid, kind);
    TallyAppend(pre + mid, post, kind);
  }

  /** The expected tally of a stream splits into its opening, its blocks and its closing. */
  lemma FileTallyParts(path: string, lines: seq<string>, kind: Kind)
    ensures FileTally(lines, kind)
            == Tally(Opening(path, |lines|), kind) + BlockTally(lines, |lines| / 4, kind) + Tally(Closing(path, |lines|), kind)
  {
    var n := |lines|;
    if n % 4 != 0 {
      TallySingle(BadLineCount(path, n), kind);
      TallySingle(Truncated(path, 4 * (n / 4) + 1), kind);
    }
  }

  /** The warnings a line stream adds, counted by kind. */
  lemma ScanStreamTally(acc: Summary, path: string, lines: seq<string>, kind: Kind)
    ensures ScanStream(acc, path, lines).Ok? ==>
              Tally(ScanStream(acc, path, lines).value.warnings[|acc.warnings|..], kind) == FileTally(lines, kind)
  {
    var start := Prelude(acc, path, lines);
    var folded := FoldBlocks(start, path, lines, |lines| / 4);
    ScanStreamParts(acc, path, lines);
    FoldWarnings(start, path, lines, |lines| / 4, kind);
    FileTallyParts(path, lines, kind);
    if folded.Ok? {
      var pre := Opening(path, |lines|);
      var post := Closing(path, |lines|);
      Appended(acc.warnings, pre, folded.value.warnings, post);
      TallyParts(pre, folded.value.warnings[|start.warnings|..], post, kind);
    }
  }

  /** The warnings an existing file adds, counted by kind. */
  lemma FileWarnings(acc: Summary, f: FileInput, kind: Kind)
    requires f.present
    ensures SummariseFile(acc, f).Ok? ==>
              Tally(SummariseFile(acc, f).value.warnings[|acc.warnings|..], kind) == FileTally(Stream(f.raw), kind)
  {
    ScanStreamTally(acc, f.path, Stream(f.raw), kind);
  }

  /**
   The order of the warnings a line stream adds: when its length is not a
   multiple of 4 the line-count warning comes first and the truncation
   warning, at 1-based line `4 * (n / 4) + 1`, comes last; every warning
   names the file.
   */
  lemma ScanStreamOrder(acc: Summary, path: string, lines: seq<string>)
    ensures var n := |lines|;
            ScanStream(acc, path, lines).Ok? ==>
              var d := ScanStream(acc, path, lines).value.warnings[|acc.warnings|..];
              && (n % 4 != 0 ==> |d| >= 2 && d[0] == BadLineCount(path, n) && d[|d| - 1] == Truncated(path, 4 * (n / 4) + 1))
              && AllAbout(d, path)
  {
    ScanStreamWarningList(acc, path, lines);
    StreamWarningsShape(path, lines);
    if ScanStream(acc, path, lines).Ok? {
      var w := ScanStream(acc, path, lines).value.warnings;
      assert w[|acc.warnings|..] == StreamWarnings(path, lines);
    }
  }

  /** The expected warnings of a stream open and close as the scan promises, and all name the file. */
  lemma StreamWarningsShape(path: string, lines: seq<string>)
    ensures var n := |lines|;
            var d := StreamWarnings(path, lines);
            && (n % 4 != 0 ==> |d| >= 2 && d[0] == BadLineCount(path, n) && d[|d| - 1] == Truncated(path, 4 * (n / 4) + 1))
            && AllAbout(d, path)
  {
    var pre := Opening(path, |lines|);
    var mid := BlockWarnings(path, lines, |lines| / 4);
    var post := Closing(path, |lines|);
    BlockWarningsPaths(path, lines, |lines| / 4);
    AllAboutConcat(pre, mid, path);
    AllAboutConcat(pre + mid, post, path);
  }

  /**
   The order of an existing file's warnings: when its stream length is not a
   multiple of 4 the line-count warning comes first and the truncation
   warning comes last; every warning names the file.
   */
  lemma FileWarningOrder(acc: Summary, f: FileInput)
    requires f.present
    ensures var n := |Stream(f.raw)|;
            SummariseFile(acc, f).Ok? ==>
              var d := SummariseFile(acc, f).value.warnings[|acc.warnings|..];
              && (n % 4 != 0 ==> |d| >= 2 && d[0] == BadLineCount(f.path, n) && d[|d| - 1] == Truncated(f.path, 4 * (n / 4) + 1))
              && AllAbout(d, f.path)
  {
    var lines := Stream(f.raw);
    ScanStreamOrder(acc, f.path, lines);
    assert SummariseFile(acc, f) == ScanStream(acc, f.path, lines);
  }

  /** Every block is counted, parses, and has matching lengths; no lines are left over. */
  ghost predicate WellFormed(lines: seq<string>) {
    && |lines| % 4 == 0
    && forall j :: 0 <= j < |lines| / 4 ==> Counted(lines, j) && BlockParses(lines, j) && !Mismatched(lines, j)
  }

  lemma {:induction false} AllCounted(lines: seq<string>, k: nat)
    requires 4 * k <= |lines|
    requires forall j :: 0 <= j < k ==> Counted(lines, j)
    ensures BadSeqLenCount(lines, k) == 0
    decreases k
  {
    if k > 0 {
      var j := k - 1;
      BadSeqLenStep(lines, j);
      AllCounted(lines, j);
    }
  }

  lemma {:induction false} NoneMismatched(lines: seq<string>, k: nat)
    requires 4 * k <= |lines|
    requires forall j :: 0 <= j < k ==> !Mismatched(lines, j)
    ensures MismatchCount(lines, k) == 0
    decreases k
  {
    if k > 0 {
      var j := k - 1;
      MismatchStep(lines, j);
      NoneMismatched(lines, j);
    }
  }

  lemma {:induction false} NoKindsMeansEmpty(ws: seq<Warning>)
    requires forall kind: Kind :: Tally(ws, kind) == 0
    ensures ws == []
  {
    if ws != [] {
      assert Tally(ws, KindOf(ws[0])) > 0;
    }
  }

  /**
   A well-formed line stream adds no warnings at all, and every one of its
   blocks is counted.
   */
  lemma WellFormedStreamIsClean(acc: Summary, path: string, lines: seq<string>)
    requires WellFormed(lines)
    ensures ScanStream(acc, path, lines).Ok?
    ensures ScanStream(acc, path, lines).value.warnings == acc.warnings
    ensures ScanStream(acc, path, lines).value.students == acc.students + |lines| / 4
  {
    var m := |lines| / 4;
    AllCounted(lines, m);
    NoneMismatched(lines, m);
    var start := Prelude(acc, path, lines);
    ScanStreamParts(acc, path, lines);
    FoldOk(start, path, lines, m);
    FoldStudents(start, path, lines, m);
    var ws := ScanStream(acc, path, lines).value.warnings;
    var d := ws[|acc.warnings|..];
    forall kind: Kind
      ensures Tally(d, kind) == 0
    {
      ScanStreamTally(acc, path, lines, kind);
    }
    NoKindsMeansEmpty(d);
    assert ws == acc.warnings + d;
  }

  /** A well-formed file adds no warnings at all, and every one of its blocks is counted. */
  lemma WellFormedFileIsClean(acc: Summary, f: FileInput)
    requires f.present && WellFormed(Stream(f.raw))
    ensures SummariseFile(acc, f).Ok?
    ensures SummariseFile(acc, f).value.warnings == acc.warnings
    ensures SummariseFile(acc, f).value.students == acc.students + |Stream(f.raw)| / 4
  {
    WellFormedStreamIsClean(acc, f.path, Stream(f.raw));
  }

}
