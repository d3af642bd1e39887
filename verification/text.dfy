/**
 Text helpers with Python's meaning: `str.strip()`, reading a file into the
 stream of stripped non-blank lines, and `str.split(',')` followed by dropping
 the empty pieces.
 */
module Text {

  /**
   Which characters a Python routine treats as surrounding whitespace:
   `str.strip()` removes every `str.isspace()` character, while `int()` skips
   a slightly smaller set.
   */
  datatype Spaces = StrSpaces | IntSpaces

  /** Python's `str.isspace()` for one character (the set `str.strip()` removes). */
  predicate IsSpace(c: char) {
    || ('\t' <= c <= '\r')          // tab, line feed, vertical tab, form feed, carriage return
    || ('\U{1C}' <= c <= ' ')       // file/group/record/unit separators and space
    || c == '\U{85}' || c == '\U{A0}' || c == '\U{1680}'
    || ('\U{2000}' <= c <= '\U{200A}')
    || c == '\U{2028}' || c == '\U{2029}' || c == '\U{202F}' || c == '\U{205F}' || c == '\U{3000}'
  }

  /**
   The whitespace `int()` skips around a numeral. CPython maps every non-ASCII
   `str.isspace()` character to a blank and then skips only the ASCII blanks
   space, tab, line feed, vertical tab, form feed and carriage return, so the
   separators U+001C..U+001F are not skipped.
   */
  predicate IsIntSpace(c: char) {
    IsSpace(c) && !('\U{1C}' <= c <= '\U{1F}')
  }

  /** Whether `c` is whitespace for the routine `w`. */
  predicate Blank(w: Spaces, c: char) {
    if w.StrSpaces? then IsSpace(c) else IsIntSpace(c)
  }

  /** True when `s` neither starts nor ends with whitespace. */
  predicate Trimmed(w: Spaces, s: string) {
    s == [] || (!Blank(w, s[0]) && !Blank(w, s[|s| - 1]))
  }

  /** Length of the longest all-whitespace prefix of `s`. */
  function LeadingSpaces(w: Spaces, s: string): (n: nat)
    ensures n <= |s|
    ensures forall i :: 0 <= i < n ==> Blank(w, s[i])
    ensures n < |s| ==> !Blank(w, s[n])
  {
    if |s| > 0 && Blank(w, s[0]) then 1 + LeadingSpaces(w, s[1..]) else 0
  }

  /** Length of the longest all-whitespace suffix of `s`. */
  function TrailingSpaces(w: Spaces, s: string): (n: nat)
    ensures n <= |s|
    ensures forall i :: |s| - n <= i < |s| ==> Blank(w, s[i])
    ensures n < |s| ==> !Blank(w, s[|s| - 1 - n])
  {
    if |s| > 0 && Blank(w, s[|s| - 1]) then 1 + TrailingSpaces(w, s[..|s| - 1]) else 0
  }

  /**
   Removing whitespace at both ends, as `str.strip()` (with `StrSpaces`) or
   `int()` (with `IntSpaces`) does: the infix of `s` that starts where the
   leading whitespace ends, followed only by whitespace, and itself trimmed.
   */
  function Strip(w: Spaces, s: string): (r: string)
    ensures LeadingSpaces(w, s) + |r| <= |s|
    ensures r == s[LeadingSpaces(w, s)..LeadingSpaces(w, s) + |r|]
    ensures forall i :: LeadingSpaces(w, s) + |r| <= i < |s| ==> Blank(w, s[i])
    ensures Trimmed(w, r)
  {
    var t := s[LeadingSpaces(w, s)..];
    t[..|t| - TrailingSpaces(w, t)]
  }

  /** A string that is already trimmed is left alone by `Strip`. */
  lemma StripTrimmed(w: Spaces, s: string)
    requires Trimmed(w, s)
    ensures Strip(w, s) == s
  {
  }

  /** Stripping twice is stripping once. */
  lemma StripIdempotent(w: Spaces, s: string)
    ensures Strip(w, Strip(w, s)) == Strip(w, s)
  {
    StripTrimmed(w, Strip(w, s));
  }

  lemma {:induction false} LeadingPadding(w: Spaces, pre: string, t: string)
    requires forall i :: 0 <= i < |pre| ==> Blank(w, pre[i])
    requires t != [] && !Blank(w, t[0])
    ensures LeadingSpaces(w, pre + t) == |pre|
    decreases |pre|
  {
    if pre != [] {
      assert (pre + t)[1..] == pre[1..] + t;
      LeadingPadding(w, pre[1..], t);
    }
  }

  lemma {:induction false} TrailingPadding(w: Spaces, t: string, post: string)
    requires forall i :: 0 <= i < |post| ==> Blank(w, post[i])
    requires t != [] && !Blank(w, t[|t| - 1])
    ensures TrailingSpaces(w, t + post) == |post|
    decreases |post|
  {
    if post != [] {
      var q := post[..|post| - 1];
      assert (t + post)[..|t + post| - 1] == t + q;
      TrailingPadding(w, t, q);
    }
  }

  /**
   Stripping a non-empty trimmed string padded with whitespace on both sides
   gives back exactly that string.
   */
  lemma StripPadded(w: Spaces, pre: string, core: string, post: string)
    requires forall i :: 0 <= i < |pre| ==> Blank(w, pre[i])
    requires forall i :: 0 <= i < |post| ==> Blank(w, post[i])
    requires core != [] && Trimmed(w, core)
    ensures Strip(w, pre + core + post) == core
  {
    var s := pre + core + post;
    assert s == pre + (core + post);
    LeadingPadding(w, pre, core + post);
    assert s[|pre|..] == core + post;
    TrailingPadding(w, core, post);
  }

  /**
   The line stream of a file, `[l.strip() for l in fh if l.strip() != '']`:
   every raw line is stripped and the ones that become empty are dropped, in
   the original order.
   */
  function Stream(raw: seq<string>): (r: seq<string>)
    ensures |r| <= |raw|
    ensures forall i :: 0 <= i < |r| ==> r[i] != [] && Trimmed(StrSpaces, r[i])
  {
    if raw == [] then []
    else
      var t := Strip(StrSpaces, raw[0]);
      (if t == [] then [] else [t]) + Stream(raw[1..])
  }

  /** The stream of a concatenation is the concatenation of the streams. */
  lemma {:induction false} StreamAppend(a: seq<string>, b: seq<string>)
    ensures Stream(a + b) == Stream(a) + Stream(b)
    decreases |a|
  {
    if a == [] {
      assert a + b == b;
    } else {
      var t := Strip(StrSpaces, a[0]);
      var head := if t == [] then [] else [t];
      assert (a + b)[0] == a[0];
      assert (a + b)[1..] == a[1..] + b;
      assert Stream(a + b) == head + Stream(a[1..] + b);
      StreamAppend(a[1..], b);
      assert head + (Stream(a[1..]) + Stream(b)) == (head + Stream(a[1..])) + Stream(b);
    }
  }

  /** The stream of a single raw line: its stripped form, unless that is empty. */
  lemma StreamSingle(l: string)
    ensures Stream([l]) == if Strip(StrSpaces, l) == [] then [] else [Strip(StrSpaces, l)]
  {
    assert [l][1..] == [];
  }

  /** Re-reading a line stream gives the same stream: nothing left to strip or drop. */
  lemma {:induction false} StreamIdempotent(raw: seq<string>)
    ensures Stream(Stream(raw)) == Stream(raw)
    decreases |raw|
  {
    if raw != [] {
      var t := Strip(StrSpaces, raw[0]);
      var head := if t == [] then [] else [t];
      StreamIdempotent(raw[1..]);
      StreamAppend(head, Stream(raw[1..]));
      if t != [] {
        StreamSingle(t);
        StripIdempotent(StrSpaces, raw[0]);
      }
    }
  }

  /** Every element of the stream is the stripped form of some raw line. */
  lemma {:induction false} StreamFromRaw(raw: seq<string>, i: nat)
    requires i < |Stream(raw)|
    ensures exists k :: 0 <= k < |raw| && Strip(StrSpaces, raw[k]) == Stream(raw)[i]
    decreases |raw|
  {
    var t := Strip(StrSpaces, raw[0]);
    if t != [] && i == 0 {
      assert Strip(StrSpaces, raw[0]) == Stream(raw)[0];
    } else {
      var j := if t == [] then i else i - 1;
      assert Stream(raw)[i] == Stream(raw[1..])[j];
      StreamFromRaw(raw[1..], j);
      var k :| 0 <= k < |raw[1..]| && Strip(StrSpaces, raw[1..][k]) == Stream(raw[1..])[j];
      assert raw[k + 1] == raw[1..][k];
    }
  }

  /**
   Python's `s.split(sep)`: the pieces between separators, always at least one
   (`"".split(',') == ['']`), none containing the separator.
   */
  function Split(s: string, sep: char): (r: seq<string>)
    ensures |r| >= 1
    ensures forall i :: 0 <= i < |r| ==> sep !in r[i]
    decreases |s|
  {
    if s == [] then [[]]
    else
      var rest := Split(s[1..], sep);
      if s[0] == sep then [[]] + rest
      else [[s[0]] + rest[0]] + rest[1..]
  }

  /** `sep.join(parts)`: the inverse of `Split`. */
  function Join(parts: seq<string>, sep: char): string
    decreases |parts|
  {
    if |parts| == 0 then []
    else if |parts| == 1 then parts[0]
    else parts[0] + [sep] + Join(parts[1..], sep)
  }

  /** Joining the pieces of a split gives back the original string. */
  lemma {:induction false} JoinSplit(s: string, sep: char)
    ensures Join(Split(s, sep), sep) == s
    decreases |s|
  {
    if s != [] {
      var rest := Split(s[1..], sep);
      JoinSplit(s[1..], sep);
      if s[0] == sep {
        assert ([[]] + rest)[1..] == rest;
      } else {
        var r := [[s[0]] + rest[0]] + rest[1..];
        assert r[1..] == rest[1..];
        if |rest| > 1 {
          assert Join(rest, sep) == rest[0] + [sep] + Join(rest[1..], sep);
        }
      }
    }
  }

  lemma {:induction false} SplitWithoutSep(x: string, sep: char)
    requires sep !in x
    ensures Split(x, sep) == [x]
    decreases |x|
  {
    if x != [] {
      SplitWithoutSep(x[1..], sep);
      assert [x[0]] + x[1..] == x;
    }
  }

  lemma {:induction false} SplitAfterPiece(x: string, sep: char, rest: string)
    requires sep !in x
    ensures Split(x + [sep] + rest, sep) == [x] + Split(rest, sep)
    decreases |x|
  {
    var s := x + [sep] + rest;
    if x == [] {
      assert s[1..] == rest;
    } else {
      assert s[1..] == x[1..] + [sep] + rest;
      SplitAfterPiece(x[1..], sep, rest);
      assert [x[0]] + x[1..] == x;
    }
  }

  /** Splitting a join of separator-free pieces gives back the pieces. */
  lemma {:induction false} SplitJoin(parts: seq<string>, sep: char)
    requires |parts| >= 1
    requires forall i :: 0 <= i < |parts| ==> sep !in parts[i]
    ensures Split(Join(parts, sep), sep) == parts
    decreases |parts|
  {
    if |parts| == 1 {
      SplitWithoutSep(parts[0], sep);
    } else {
      SplitJoin(parts[1..], sep);
      SplitAfterPiece(parts[0], sep, Join(parts[1..], sep));
      assert [parts[0]] + parts[1..] == parts;
    }
  }

  /** The pieces that are not empty (`[x for x in pieces if x != '']`). */
  function NonEmpty(pieces: seq<string>): (r: seq<string>)
    ensures |r| <= |pieces|
    ensures forall i :: 0 <= i < |r| ==> r[i] != [] && r[i] in pieces
  {
    if pieces == [] then []
    else (if pieces[0] == [] then [] else [pieces[0]]) + NonEmpty(pieces[1..])
  }

  /** The non-empty tokens of a comma-separated line. */
  function Tokens(s: string): (r: seq<string>)
    ensures forall i :: 0 <= i < |r| ==> r[i] != [] && ',' !in r[i]
  {
    NonEmpty(Split(s, ','))
  }

  /** All the strings of `parts`, concatenated. */
  function Concat(parts: seq<string>): string {
    if parts == [] then [] else parts[0] + Concat(parts[1..])
  }

  /** `s` with every occurrence of `c` removed. */
  function Without(s: string, c: char): string {
    if s == [] then [] else (if s[0] == c then [] else [s[0]]) + Without(s[1..], c)
  }

  lemma {:induction false} ConcatNonEmpty(pieces: seq<string>)
    ensures Concat(NonEmpty(pieces)) == Concat(pieces)
    decreases |pieces|
  {
    if pieces != [] {
      ConcatNonEmpty(pieces[1..]);
      var head := if pieces[0] == [] then [] else [pieces[0]];
      ConcatAppend(head, NonEmpty(pieces[1..]));
    }
  }

  lemma {:induction false} ConcatAppend(a: seq<string>, b: seq<string>)
    ensures Concat(a + b) == Concat(a) + Concat(b)
    decreases |a|
  {
    if a == [] {
      assert a + b == b;
    } else {
      assert (a + b)[1..] == a[1..] + b;
      ConcatAppend(a[1..], b);
    }
  }

  lemma {:induction false} ConcatSplit(s: string, sep: char)
    ensures Concat(Split(s, sep)) == Without(s, sep)
    decreases |s|
  {
    if s != [] {
      var rest := Split(s[1..], sep);
      ConcatSplit(s[1..], sep);
      if s[0] == sep {
        assert ([[]] + rest)[1..] == rest;
      } else {
        assert ([[s[0]] + rest[0]] + rest[1..])[1..] == rest[1..];
        assert Concat(rest) == rest[0] + Concat(rest[1..]);
      }
    }
  }

  /**
   The tokens of a line hold exactly its non-comma characters, in order: the
   split-and-filter step loses nothing but the commas.
   */
  lemma TokensKeepContent(s: string)
    ensures Concat(Tokens(s)) == Without(s, ',')
  {
    ConcatNonEmpty(Split(s, ','));
    ConcatSplit(s, ',');
  }

  lemma {:induction false} NonEmptyIdentity(pieces: seq<string>)
    requires forall i :: 0 <= i < |pieces| ==> pieces[i] != []
    ensures NonEmpty(pieces) == pieces
    decreases |pieces|
  {
    if pieces != [] {
      NonEmptyIdentity(pieces[1..]);
      assert [pieces[0]] + pieces[1..] == pieces;
    }
  }

  /** A single piece is kept exactly when it is not empty. */
  lemma NonEmptySingle(p: string)
    ensures NonEmpty([p]) == if p == [] then [] else [p]
  {
    assert [p][1..] == [];
  }

  /**
   Filtering a concatenation filters each part separately: every non-empty
   piece is kept, in its original order, and nothing else is.
   */
  lemma {:induction false} NonEmptyAppend(a: seq<string>, b: seq<string>)
    ensures NonEmpty(a + b) == NonEmpty(a) + NonEmpty(b)
    decreases |a|
  {
    if a == [] {
      assert a + b == b;
    } else {
      var head := if a[0] == [] then [] else [a[0]];
      assert (a + b)[0] == a[0];
      assert (a + b)[1..] == a[1..] + b;
      NonEmptyAppend(a[1..], b);
      assert head + (NonEmpty(a[1..]) + NonEmpty(b)) == (head + NonEmpty(a[1..])) + NonEmpty(b);
    }
  }

  lemma {:induction false} JoinAppend(parts: seq<string>, x: string, sep: char)
    requires |parts| >= 1
    ensures Join(parts + [x], sep) == Join(parts, sep) + [sep] + x
    decreases |parts|
  {
    if |parts| > 1 {
      assert (parts + [x])[1..] == parts[1..] + [x];
      JoinAppend(parts[1..], x, sep);
    }
  }

  /**
   The tokens of a comma-joined list of comma-free pieces are exactly the
   non-empty pieces, in order.
   */
  lemma TokensOfPieces(parts: seq<string>)
    requires forall i :: 0 <= i < |parts| ==> ',' !in parts[i]
    ensures Tokens(Join(parts, ',')) == NonEmpty(parts)
  {
    if parts == [] {
      assert Split([], ',') == [[]];
    } else {
      SplitJoin(parts, ',');
    }
  }

  /**
   Tokenising a comma-joined list of non-empty, comma-free tokens gives back
   that list.
   */
  lemma TokensOfJoin(toks: seq<string>)
    requires forall i :: 0 <= i < |toks| ==> toks[i] != [] && ',' !in toks[i]
    ensures Tokens(Join(toks, ',')) == toks
  {
    TokensOfPieces(toks);
    NonEmptyIdentity(toks);
  }

  /** A trailing comma adds only an empty piece, which is dropped. */
  lemma TokensTrailingComma(toks: seq<string>)
    requires forall i :: 0 <= i < |toks| ==> toks[i] != [] && ',' !in toks[i]
    ensures Tokens(Join(toks, ',') + ",") == toks
  {
    var j := Join(toks, ',');
    if toks == [] {
      assert j + "," == ",";
      TokensOfLoneComma();
    } else {
      JoinAppend(toks, [], ',');
      assert j + [','] + [] == j + ",";
      TokensOfPiecesThenEmpty(toks);
    }
  }

  lemma TokensOfLoneComma()
    ensures Tokens(",") == []
  {
    assert ","[1..] == [];
    assert Split(",", ',') == [[]] + [[]];
    NonEmptyAppend([[]], [[]]);
    NonEmptySingle([]);
  }

  lemma TokensOfPiecesThenEmpty(toks: seq<string>)
    requires forall i :: 0 <= i < |toks| ==> toks[i] != [] && ',' !in toks[i]
    ensures Tokens(Join(toks + [[]], ',')) == toks
  {
    var parts := toks + [[]];
    TokensOfPieces(parts);
    NonEmptyAppend(toks, [[]]);
    NonEmptySingle([]);
    NonEmptyIdentity(toks);
  }

}
