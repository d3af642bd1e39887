/**
 One record of the assist09 format: four consecutive lines of a file's line
 stream — the declared `seq_len`, the question ids, the skill ids and the
 responses — and what processing it contributes to the accumulators.
 */
module Blocks {
  import opened Wrappers
  import opened Text
  import opened PyInt
  import opened Aggregate

  /** Block `j` (0-based) occupies stream lines `4*j` to `4*j + 3`. */
  predicate HasBlock(lines: seq<string>, j: nat) {
    4 * j + 4 <= |lines|
  }

  function SeqLenLine(lines: seq<string>, j: nat): string
    requires HasBlock(lines, j)
  {
    lines[4 * j]
  }

  function QuestionLine(lines: seq<string>, j: nat): string
    requires HasBlock(lines, j)
  {
    lines[4 * j + 1]
  }

  function SkillLine(lines: seq<string>, j: nat): string
    requires HasBlock(lines, j)
  {
    lines[4 * j + 2]
  }

  function ResponseLine(lines: seq<string>, j: nat): string
    requires HasBlock(lines, j)
  {
    lines[4 * j + 3]
  }

  /** The block's `seq_len` line parses, so the block is counted (unless the run crashes). */
  predicate Counted(lines: seq<string>, j: nat)
    requires HasBlock(lines, j)
  {
    ParseInt(SeqLenLine(lines, j)).Some?
  }

  /** Every token parses as an integer. */
  predicate AllIds(toks: seq<string>) {
    forall i :: 0 <= i < |toks| ==> ParseInt(toks[i]).Some?
  }

  /**
   The block does not make `int(x)` raise: either it is skipped for its
   `seq_len`, or all of its question-id and skill-id tokens parse.
   Responses play no part.
   */
  predicate BlockParses(lines: seq<string>, j: nat)
    requires HasBlock(lines, j)
  {
    Counted(lines, j) ==> AllIds(Tokens(QuestionLine(lines, j))) && AllIds(Tokens(SkillLine(lines, j)))
  }

  /** The declared length and the three list lengths are not all equal. */
  predicate Mismatched(lines: seq<string>, j: nat)
    requires HasBlock(lines, j)
  {
    && Counted(lines, j)
    && var n := ParseInt(SeqLenLine(lines, j)).value;
       var q := |Tokens(QuestionLine(lines, j))|;
       var s := |Tokens(SkillLine(lines, j))|;
       var r := |Tokens(ResponseLine(lines, j))|;
       !(q == s && s == r && r == n)
  }

  /** The integers the parseable tokens of `toks` denote. */
  ghost function IdSet(toks: seq<string>): set<int> {
    set t | t in toks && ParseInt(t).Some? :: ParseInt(t).value
  }

  function SetOf(xs: seq<int>): set<int> {
    set x | x in xs
  }

  /**
   `[int(x) for x in toks]`: the ids in order, or the crash raised by the
   first token that is not an integer.
   */
  function ParseIds(path: string, line: nat, toks: seq<string>): (r: Result<seq<int>>)
    ensures r.Ok? <==> AllIds(toks)
    ensures r.Ok? ==> |r.value| == |toks|
    ensures r.Ok? ==> forall i :: 0 <= i < |toks| ==> ParseInt(toks[i]) == Some(r.value[i])
    ensures r.Crash? ==> r.info.path == path && r.info.line == line
    ensures r.Crash? ==> exists k :: 0 <= k < |toks| && toks[k] == r.info.token && ParseInt(toks[k]).None? && AllIds(toks[..k])
    decreases |toks|
  {
    if toks == [] then Ok([])
    else
      AllIdsCons(toks);
      match ParseInt(toks[0])
      case None =>
        assert toks[0] == toks[0] && AllIds(toks[..0]);
        Crash(BadId(path, line, toks[0]))
      case Some(v) =>
        match ParseIds(path, line, toks[1..])
        case Crash(c) =>
          ParseIdsCrashShift(toks, c.token);
          Crash(c)
        case Ok(vs) =>
          ParseIdsCons(toks, v, vs);
          Ok([v] + vs)
  }

  /** Every token is an id exactly when the first is and all the rest are. */
  lemma AllIdsCons(toks: seq<string>)
    requires |toks| > 0
    ensures AllIds(toks) <==> ParseInt(toks[0]).Some? && AllIds(toks[1..])
  {
    if ParseInt(toks[0]).Some? && AllIds(toks[1..]) {
      forall i | 0 < i < |toks|
        ensures ParseInt(toks[i]).Some?
      {
        assert toks[i] == toks[1..][i - 1];
      }
    }
  }

  /** The ids of the first token and of the rest, together, are the ids of all the tokens. */
  lemma ParseIdsCons(toks: seq<string>, v: int, vs: seq<int>)
    requires |toks| > 0 && ParseInt(toks[0]) == Some(v)
    requires |vs| == |toks| - 1
    requires forall i :: 0 <= i < |vs| ==> ParseInt(toks[1..][i]) == Some(vs[i])
    ensures forall i :: 0 <= i < |toks| ==> ParseInt(toks[i]) == Some(([v] + vs)[i])
  {
    forall i | 0 < i < |toks|
      ensures ParseInt(toks[i]) == Some(([v] + vs)[i])
    {
      assert toks[i] == toks[1..][i - 1];
      assert ([v] + vs)[i] == vs[i - 1];
    }
  }

  lemma ParseIdsCrashShift(toks: seq<string>, token: string)
    requires |toks| > 0 && ParseInt(toks[0]).Some?
    requires exists k :: 0 <= k < |toks[1..]| && toks[1..][k] == token && ParseInt(toks[1..][k]).None? && AllIds(toks[1..][..k])
    ensures exists k :: 0 <= k < |toks| && toks[k] == token && ParseInt(toks[k]).None? && AllIds(toks[..k])
  {
    var k :| 0 <= k < |toks[1..]| && toks[1..][k] == token && ParseInt(toks[1..][k]).None? && AllIds(toks[1..][..k]);
    var prefix := toks[..k + 1];
    forall i | 0 <= i < |prefix|
      ensures ParseInt(prefix[i]).Some?
    {
      if i > 0 {
        assert prefix[i] == toks[1..][..k][i - 1];
      }
    }
    assert toks[k + 1] == token;
  }

  /** The set of parsed ids is the set of integers the tokens denote. */
  lemma ParseIdsSet(path: string, line: nat, toks: seq<string>)
    requires ParseIds(path, line, toks).Ok?
    ensures SetOf(ParseIds(path, line, toks).value) == IdSet(toks)
  {
    var ids := ParseIds(path, line, toks).value;
    forall v | v in SetOf(ids)
      ensures v in IdSet(toks)
    {
      var i :| 0 <= i < |ids| && ids[i] == v;
      assert toks[i] in toks;
    }
    forall v | v in IdSet(toks)
      ensures v in SetOf(ids)
    {
      var t :| t in toks && ParseInt(t).Some? && ParseInt(t).value == v;
      var i :| 0 <= i < |toks| && toks[i] == t;
      assert ids[i] == v;
    }
  }

  /**
   The contribution of block `j` of the stream `lines` of file `path`
   (one pass of the scripts' loop body): a non-integer `seq_len` gives one
   warning and nothing else; otherwise the block counts one student, its
   question and skill ids, and its question-id count as interactions, plus a
   warning when the lengths disagree. A bad id token raises.
   */
  function BlockEffect(path: string, lines: seq<string>, j: nat): (r: Result<Summary>)
    requires HasBlock(lines, j)
    ensures r.Ok? <==> BlockParses(lines, j)
    ensures r.Crash? ==> Counted(lines, j) && r.info.path == path
    ensures r.Crash? ==> r.info.line == 4 * j + 2 || r.info.line == 4 * j + 3
    ensures r.Crash? ==> ParseInt(r.info.token).None?
    ensures r.Ok? ==> r.value.students == (if Counted(lines, j) then 1 else 0)
    ensures r.Ok? ==> r.value.interactions == (if Counted(lines, j) then |Tokens(QuestionLine(lines, j))| else 0)
    ensures r.Ok? ==> r.value.problems == (if Counted(lines, j) then IdSet(Tokens(QuestionLine(lines, j))) else {})
    ensures r.Ok? ==> r.value.skills == (if Counted(lines, j) then IdSet(Tokens(SkillLine(lines, j))) else {})
    ensures r.Ok? && !Counted(lines, j) ==>
              r.value.warnings == [BadSeqLen(path, SeqLenLine(lines, j), 4 * j + 1)]
    ensures r.Ok? && Counted(lines, j) ==> (r.value.warnings == [] <==> !Mismatched(lines, j))
    ensures r.Ok? && Mismatched(lines, j) ==>
              r.value.warnings == [Mismatch(path, 4 * j + 1, ParseInt(SeqLenLine(lines, j)).value,
                                            |Tokens(QuestionLine(lines, j))|, |Tokens(SkillLine(lines, j))|,
                                            |Tokens(ResponseLine(lines, j))|)]
  {
    var start := 4 * j + 1;
    match ParseInt(SeqLenLine(lines, j))
    case None => Ok(Empty.(warnings := [BadSeqLen(path, SeqLenLine(lines, j), start)]))
    case Some(seqLen) =>
      var qtoks := Tokens(QuestionLine(lines, j));
      var stoks := Tokens(SkillLine(lines, j));
      var resps := Tokens(ResponseLine(lines, j));
      match ParseIds(path, start + 1, qtoks)
      case Crash(c) => Crash(c)
      case Ok(qids) =>
        match ParseIds(path, start + 2, stoks)
        case Crash(c) => Crash(c)
        case Ok(skids) =>
          ParseIdsSet(path, start + 1, qtoks);
          ParseIdsSet(path, start + 2, stoks);
          var agree := |qids| == |skids| && |skids| == |resps| && |resps| == seqLen;
          var w := if agree then [] else [Mismatch(path, start, seqLen, |qids|, |skids|, |resps|)];
          Ok(Summary(1, SetOf(qids), SetOf(skids), |qids|, w))
  }

}
