/**
 The warning report both scripts print after their totals: nothing when
 there are no warnings; otherwise a header, the first 50 warnings one per
 line, and a closing line counting the warnings left unprinted.
 */
module Display {
  import opened Wrappers
  import opened Aggregate

  /** How many warnings are printed at most. */
  const Cap: nat := 50

  function Min(a: nat, b: nat): nat {
    if a <= b then a else b
  }

  /** What is reported: nothing, or the printed warnings and the number held back. */
  datatype Listing = Silent | Listed(shown: seq<Warning>, more: Option<nat>)

  /** `warnings[:50]`, and `len(warnings) - 50` when that is positive. */
  function ShowWarnings(ws: seq<Warning>): (r: Listing)
    ensures r.Silent? <==> ws == []
    ensures r.Listed? ==> r.shown <= ws && 0 < |r.shown| <= Cap
    ensures r.Listed? && |r.shown| < Cap ==> r.shown == ws
    ensures r.Listed? ==> (r.more.Some? <==> |ws| > Cap)
  {
    if ws == [] then Silent
    else Listed(ws[..Min(Cap, |ws|)], if |ws| > Cap then Some(|ws| - Cap) else None)
  }

  /** The number of warnings a listing says were not printed. */
  function Hidden(l: Listing): nat {
    if l.Listed? && l.more.Some? then l.more.value else 0
  }

  /**
   Nothing is lost: the printed warnings followed by as many more as the
   closing line counts make up the whole list, in order.
   */
  lemma ListingAccountsForAll(ws: seq<Warning>)
    ensures ShowWarnings(ws).Listed? ==>
              var l := ShowWarnings(ws);
              && l.shown + ws[|l.shown|..] == ws
              && |ws[|l.shown|..]| == Hidden(l)
  {
    var l := ShowWarnings(ws);
    if l.Listed? {
      assert l.shown + ws[|l.shown|..] == ws;
    }
  }

  /** Once 50 warnings are held, later warnings change only the closing count. */
  lemma ListingStable(ws: seq<Warning>, extra: seq<Warning>)
    requires |ws| >= Cap
    ensures ShowWarnings(ws + extra).shown == ShowWarnings(ws).shown
    ensures Hidden(ShowWarnings(ws + extra)) == Hidden(ShowWarnings(ws)) + |extra|
  {
    assert (ws + extra)[..Cap] == ws[..Cap];
  }

  /** One printed line of the report. */
  datatype Line = Header | Item(warning: Warning) | More(count: nat)

  /** `- w` for each warning, in order. */
  function Items(ws: seq<Warning>): (r: seq<Line>)
    ensures |r| == |ws|
    ensures forall i :: 0 <= i < |ws| ==> r[i] == Item(ws[i])
  {
    seq(|ws|, i requires 0 <= i < |ws| => Item(ws[i]))
  }

  /** The lines a listing is printed as. */
  function Lines(l: Listing): seq<Line> {
    match l
    case Silent => []
    case Listed(shown, more) =>
      [Header] + Items(shown) + (if more.Some? then [More(more.value)] else [])
  }

  /** The report's length: a header, at most 50 warnings, and an overflow line when needed. */
  lemma LinesCount(ws: seq<Warning>)
    ensures |Lines(ShowWarnings(ws))|
            == if ws == [] then 0 else 1 + Min(Cap, |ws|) + (if |ws| > Cap then 1 else 0)
  {
  }

  /**
   The report in the scripts' imperative form: the header if there are
   warnings, a loop over the first 50, then the overflow line.
   */
  method Report(ws: seq<Warning>) returns (out: seq<Line>)
    ensures out == Lines(ShowWarnings(ws))
  {
    out := [];
    if ws != [] {
      out := [Header];
      var i := 0;
      while i < |ws| && i < Cap
        invariant 0 <= i <= Min(Cap, |ws|)
        invariant out == [Header] + Items(ws[..i])
      {
        assert ws[..i + 1] == ws[..i] + [ws[i]];
        out := out + [Item(ws[i])];
        i := i + 1;
      }
      if |ws| > Cap {
        out := out + [More(|ws| - Cap)];
      }
    }
  }

}
