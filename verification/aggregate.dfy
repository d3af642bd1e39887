/**
 The data the assist09 summariser accumulates: warnings (as values, not
 message text), the running totals, and the fatal outcomes of a run.
 */
module Aggregate {

  /**
   One warning. `line` is the 1-based position in the file's line stream of
   the first line of the block concerned.
   */
  datatype Warning =
    | MissingFile(path: string)
    | BadLineCount(path: string, count: nat)
    | Truncated(path: string, line: nat)
    | BadSeqLen(path: string, text: string, line: nat)
    | Mismatch(path: string, line: nat, seqLen: int, questions: nat, skills: nat, responses: nat)

  datatype Kind = MissingKind | LineCountKind | TruncatedKind | SeqLenKind | MismatchKind

  function KindOf(w: Warning): Kind {
    match w
    case MissingFile(_) => MissingKind
    case BadLineCount(_, _) => LineCountKind
    case Truncated(_, _) => TruncatedKind
    case BadSeqLen(_, _, _) => SeqLenKind
    case Mismatch(_, _, _, _, _, _) => MismatchKind
  }

  /** How many warnings of `ws` are of kind `k`. */
  function Tally(ws: seq<Warning>, k: Kind): (n: nat)
    ensures n <= |ws|
  {
    if ws == [] then 0 else (if KindOf(ws[0]) == k then 1 else 0) + Tally(ws[1..], k)
  }

  lemma {:induction false} TallyAppend(a: seq<Warning>, b: seq<Warning>, k: Kind)
    ensures Tally(a + b, k) == Tally(a, k) + Tally(b, k)
    decreases |a|
  {
    if a == [] {
      assert a + b == b;
    } else {
      assert (a + b)[1..] == a[1..] + b;
      TallyAppend(a[1..], b, k);
    }
  }

  lemma TallySingle(w: Warning, k: Kind)
    ensures Tally([w], k) == if KindOf(w) == k then 1 else 0
  {
    assert [w][1..] == [];
  }

  /** Appending to a warning list in two steps is appending once: `a + b + c == a + (b + c)`. */
  lemma Regroup(a: seq<Warning>, b: seq<Warning>, c: seq<Warning>)
    ensures a + b + c == a + (b + c)
  {
  }

  /**
   One step of an id-set accumulator: if `prev` is `a` grown by `lo` and the
   step adds `extra`, the result is `a` grown by `lo` and `extra` together.
   */
  lemma SetStep(a: set<int>, prev: set<int>, next: set<int>, lo: set<int>, hi: set<int>, extra: set<int>)
    requires prev == a + lo && next == prev + extra && hi == lo + extra
    ensures next == a + hi
  {
  }

  /**
   The accumulators of the scripts: `student_count`, `problems`, `skills`,
   `total_interactions` and `warnings`.
   */
  datatype Summary = Summary(
    students: nat,
    problems: set<int>,
    skills: set<int>,
    interactions: nat,
    warnings: seq<Warning>)

  /** The accumulators before anything is read. */
  const Empty := Summary(0, {}, {}, 0, [])

  /** Adds a contribution `d` to the accumulators `a`. */
  function Combine(a: Summary, d: Summary): Summary {
    Summary(
      a.students + d.students,
      a.problems + d.problems,
      a.skills + d.skills,
      a.interactions + d.interactions,
      a.warnings + d.warnings)
  }

  /** `warnings.append(w)`. */
  function Warn(a: Summary, w: Warning): Summary {
    a.(warnings := a.warnings + [w])
  }

  /** The exception raised by `int(x)` on a question- or skill-id token. */
  datatype CrashInfo = BadId(path: string, line: nat, token: string)

  /** A partial run: either the accumulators so far, or the crash that ended it. */
  datatype Result<T> = Ok(value: T) | Crash(info: CrashInfo)

  /** Adds the contribution in `r` (if any) to `a`; a crash stays a crash. */
  function Lift(a: Summary, r: Result<Summary>): Result<Summary> {
    match r
    case Ok(d) => Ok(Combine(a, d))
    case Crash(c) => Crash(c)
  }

}
