/**
 A simplified model of CPython's `int(x)` on a string: surrounding whitespace
 is ignored, an optional `+` or `-` sign may lead, and the rest must be ASCII
 decimal digits, where single underscores may separate two digits
 (`"1_000"`), and at most 4300 of them (the default limit of CPython 3.11 and
 later). Python also accepts non-ASCII decimal digits; this model does not.
 */
module PyInt {
  import opened Wrappers
  import opened Text

  predicate IsDigit(c: char) {
    '0' <= c <= '9'
  }

  /** Python's grammar for the unsigned decimal part of `int(x)`: digits, where single underscores may separate two digits. */
  predicate IsNumeral(d: string) {
    && |d| > 0
    && (forall i :: 0 <= i < |d| ==> IsDigit(d[i]) || d[i] == '_')
    && (forall i :: 0 <= i < |d| && d[i] == '_' ==> 0 < i < |d| - 1 && IsDigit(d[i - 1]) && IsDigit(d[i + 1]))
  }

  /** The decimal value of the digits of `d`, ignoring every other character. */
  function NumeralValue(d: string): nat
    decreases |d|
  {
    if d == [] then 0
    else
      var c := d[|d| - 1];
      if IsDigit(c) then 10 * NumeralValue(d[..|d| - 1]) + (c as int - '0' as int)
      else NumeralValue(d[..|d| - 1])
  }

  predicate IsSign(c: char) {
    c == '+' || c == '-'
  }

  /**
   The default bound on the number of digits `int(x)` converts
   (`sys.int_info.default_max_str_digits` in CPython 3.11 and later).
   */
  const MaxStrDigits: nat := 4300

  /** How many decimal digits `s` holds; underscores, signs and whitespace do not count. */
  function DigitCount(s: string): (n: nat)
    ensures n <= |s|
  {
    if s == [] then 0 else (if IsDigit(s[0]) then 1 else 0) + DigitCount(s[1..])
  }

  /**
   `int(x)` for a string `x`, or `None` where Python raises `ValueError`.
   An accepted string, once stripped of the whitespace `int()` skips,
   consists of an optional leading sign followed by digits and underscores
   only, with at most `MaxStrDigits` digits.
   */
  function ParseInt(s: string): (r: Option<int>)
    ensures r.Some? ==> |Strip(IntSpaces, s)| > 0
    ensures r.Some? ==> forall i :: 0 < i < |Strip(IntSpaces, s)| ==>
              IsDigit(Strip(IntSpaces, s)[i]) || Strip(IntSpaces, s)[i] == '_'
    ensures r.Some? ==> IsDigit(Strip(IntSpaces, s)[0]) || IsSign(Strip(IntSpaces, s)[0])
    ensures r.Some? && r.value < 0 ==> Strip(IntSpaces, s)[0] == '-'
  {
    var t := Strip(IntSpaces, s);
    if |t| > 0 && IsSign(t[0]) then
      var body := t[1..];
      if IsNumeral(body) && DigitCount(body) <= MaxStrDigits then
        var v: int := NumeralValue(body);
        Some(if t[0] == '-' then -v else v)
      else None
    else if IsNumeral(t) && DigitCount(t) <= MaxStrDigits then Some(NumeralValue(t))
    else None
  }

  /** An accepted string holds at most `MaxStrDigits` digits. */
  lemma ParseIntDigitBound(s: string)
    requires ParseInt(s).Some?
    ensures DigitCount(Strip(IntSpaces, s)) <= MaxStrDigits
  {
  }

  /**
   The converse of `ParsePadded`: an accepted string is, once stripped, an
   optional sign followed by a numeral of at most `MaxStrDigits` digits, and
   the result is that numeral's signed value (so `"1_"`, `"+"` and `"+_5"`
   are all rejected).
   */
  lemma ParseIntAccepted(s: string)
    requires ParseInt(s).Some?
    ensures exists sgn: string, d: string ::
              && (sgn == "" || sgn == "+" || sgn == "-")
              && Strip(IntSpaces, s) == sgn + d
              && IsNumeral(d) && DigitCount(d) <= MaxStrDigits
              && ParseInt(s).value == (if sgn == "-" then -(NumeralValue(d) as int) else NumeralValue(d))
  {
    var t := Strip(IntSpaces, s);
    if |t| > 0 && IsSign(t[0]) {
      var sgn, d := [t[0]], t[1..];
      assert t == sgn + d;
    } else {
      var sgn: string := "";
      assert t == sgn + t;
    }
  }

  /** Surrounding whitespace never changes what `int(x)` returns. */
  lemma ParseIntStrip(s: string)
    ensures ParseInt(Strip(IntSpaces, s)) == ParseInt(s)
  {
    StripIdempotent(IntSpaces, s);
  }

  /**
   A string holding a character that is not whitespace to `int()`, a digit,
   an underscore or a sign is rejected (e.g. `int("abc")` raises).
   */
  lemma NonNumericRejected(s: string, i: nat)
    requires i < |s|
    requires !IsIntSpace(s[i]) && !IsDigit(s[i]) && s[i] != '_' && !IsSign(s[i])
    ensures ParseInt(s) == None
  {
    var a := LeadingSpaces(IntSpaces, s);
    var t := Strip(IntSpaces, s);
    assert a <= i < a + |t|;
    assert t[i - a] == s[i];
  }

  /**
   The ASCII separators U+001C..U+001F are whitespace to `str.strip()` but
   not to `int()`: `int("\x1c5")` raises although `"\x1c5".strip() == "5"`.
   */
  lemma SeparatorNotSkipped()
    ensures Strip(StrSpaces, "\U{1C}5") == "5"
    ensures ParseInt("\U{1C}5") == None
  {
    assert "\U{1C}5"[1..] == "5";
    NonNumericRejected("\U{1C}5", 0);
  }

  /**
   Every well-formed input is accepted with its value: whitespace padding, an
   optional sign, and a numeral of at most `MaxStrDigits` digits.
   */
  lemma ParsePadded(pre: string, sgn: string, d: string, post: string)
    requires forall i :: 0 <= i < |pre| ==> IsIntSpace(pre[i])
    requires forall i :: 0 <= i < |post| ==> IsIntSpace(post[i])
    requires sgn == "" || sgn == "+" || sgn == "-"
    requires IsNumeral(d) && DigitCount(d) <= MaxStrDigits
    ensures ParseInt(pre + sgn + d + post)
            == Some(if sgn == "-" then -(NumeralValue(d) as int) else NumeralValue(d))
  {
    PaddedStrip(pre, sgn, d, post);
    ParseStripped(pre + sgn + d + post, sgn, d);
  }

  lemma ParseStripped(s: string, sgn: string, d: string)
    requires Strip(IntSpaces, s) == sgn + d
    requires sgn == "" || sgn == "+" || sgn == "-"
    requires IsNumeral(d) && DigitCount(d) <= MaxStrDigits
    ensures ParseInt(s) == Some(if sgn == "-" then -(NumeralValue(d) as int) else NumeralValue(d))
  {
    if sgn == "" {
      ParseUnsigned(s, d);
    } else {
      ParseSigned(s, sgn[0], d);
    }
  }

  lemma ParseUnsigned(s: string, d: string)
    requires Strip(IntSpaces, s) == d
    requires IsNumeral(d) && DigitCount(d) <= MaxStrDigits
    ensures ParseInt(s) == Some(NumeralValue(d))
  {
    assert IsDigit(d[0]);
  }

  lemma ParseSigned(s: string, c: char, d: string)
    requires Strip(IntSpaces, s) == [c] + d
    requires IsSign(c)
    requires IsNumeral(d) && DigitCount(d) <= MaxStrDigits
    ensures ParseInt(s) == Some(if c == '-' then -(NumeralValue(d) as int) else NumeralValue(d))
  {
    assert ([c] + d)[1..] == d;
  }

  /** A numeral with more than `MaxStrDigits` digits is rejected, however it is padded or signed. */
  lemma TooManyDigitsRejected(pre: string, sgn: string, d: string, post: string)
    requires forall i :: 0 <= i < |pre| ==> IsIntSpace(pre[i])
    requires forall i :: 0 <= i < |post| ==> IsIntSpace(post[i])
    requires sgn == "" || sgn == "+" || sgn == "-"
    requires IsNumeral(d) && DigitCount(d) > MaxStrDigits
    ensures ParseInt(pre + sgn + d + post) == None
  {
    PaddedStrip(pre, sgn, d, post);
    if sgn == "" {
      RejectUnsigned(pre + sgn + d + post, d);
    } else {
      RejectSigned(pre + sgn + d + post, sgn[0], d);
    }
  }

  lemma RejectUnsigned(s: string, d: string)
    requires Strip(IntSpaces, s) == d
    requires IsNumeral(d) && DigitCount(d) > MaxStrDigits
    ensures ParseInt(s) == None
  {
    assert IsDigit(d[0]);
  }

  lemma RejectSigned(s: string, c: char, d: string)
    requires Strip(IntSpaces, s) == [c] + d
    requires IsSign(c)
    requires IsNumeral(d) && DigitCount(d) > MaxStrDigits
    ensures ParseInt(s) == None
  {
    assert ([c] + d)[1..] == d;
  }

  lemma PaddedStrip(pre: string, sgn: string, d: string, post: string)
    requires forall i :: 0 <= i < |pre| ==> IsIntSpace(pre[i])
    requires forall i :: 0 <= i < |post| ==> IsIntSpace(post[i])
    requires sgn == "" || sgn == "+" || sgn == "-"
    requires IsNumeral(d)
    ensures Strip(IntSpaces, pre + sgn + d + post) == sgn + d
  {
    var t := sgn + d;
    assert t[0] == (if sgn == "" then d[0] else sgn[0]);
    assert t[|t| - 1] == d[|d| - 1];
    assert pre + sgn + d + post == pre + t + post;
    StripPadded(IntSpaces, pre, t, post);
  }

  /** The decimal rendering of a natural number. */
  function ShowNat(n: nat): (r: string)
    ensures |r| > 0
    ensures forall i :: 0 <= i < |r| ==> IsDigit(r[i])
    decreases n
  {
    var digit := ('0' as int + n % 10) as char;
    if n < 10 then [digit] else ShowNat(n / 10) + [digit]
  }

  /** The decimal rendering of an integer, as `str(n)` gives it. */
  function ShowInt(n: int): string {
    if n < 0 then "-" + ShowNat(-n) else ShowNat(n)
  }

  lemma {:induction false} NumeralValueShowNat(n: nat)
    ensures NumeralValue(ShowNat(n)) == n
    decreases n
  {
    var s := ShowNat(n);
    if n >= 10 {
      NumeralValueShowNat(n / 10);
      assert s[..|s| - 1] == ShowNat(n / 10);
    }
  }

  lemma DigitsAreNumeral(d: string)
    requires |d| > 0
    requires forall i :: 0 <= i < |d| ==> IsDigit(d[i])
    ensures IsNumeral(d)
  {
  }

  /** `int(str(n)) == n`: the parser accepts every rendered integer and returns it. */
  lemma ParseShowInt(n: int)
    requires DigitCount(ShowInt(n)) <= MaxStrDigits
    ensures ParseInt(ShowInt(n)) == Some(n)
  {
    var m := if n < 0 then -n else n;
    var digits := ShowNat(m);
    DigitsAreNumeral(digits);
    NumeralValueShowNat(m);
    var s := ShowInt(n);
    if n < 0 {
      assert s == ['-'] + digits;
      assert s[1..] == digits;
      assert DigitCount(s) == DigitCount(digits);
      StripTrimmed(IntSpaces, s);
      ParseSigned(s, '-', digits);
    } else {
      StripTrimmed(IntSpaces, s);
      ParseUnsigned(s, digits);
    }
  }

  /** Leading zeros are accepted, as by Python. */
  lemma ParseIntLeadingZeros()
    ensures ParseInt("007") == Some(7)
  {
    StripTrimmed(IntSpaces, "007");
    assert "007"[1..] == "07" && "07"[1..] == "7" && "7"[1..] == "";
    assert DigitCount("007") == 3;
    assert "007"[..2] == "00" && "00"[..1] == "0" && "0"[..0] == "";
    assert NumeralValue("007") == 7;
    ParseUnsigned("007", "007");
  }

  /** A single underscore between digits is accepted, as by Python. */
  lemma ParseIntUnderscore()
    ensures ParseInt("1_0") == Some(10)
  {
    StripTrimmed(IntSpaces, "1_0");
    assert "1_0"[1..] == "_0" && "_0"[1..] == "0" && "0"[1..] == "";
    assert DigitCount("1_0") == 2;
    assert "1_0"[..2] == "1_" && "1_"[..1] == "1" && "1"[..0] == "";
    assert NumeralValue("1_0") == 10;
    ParseUnsigned("1_0", "1_0");
  }

  /** A doubled underscore is rejected. */
  lemma ParseIntDoubleUnderscore()
    ensures ParseInt("1__0") == None
  {
    StripTrimmed(IntSpaces, "1__0");
    assert "1__0"[1] == '_';
  }

  /** A leading underscore is rejected. */
  lemma ParseIntLeadingUnderscore()
    ensures ParseInt("_1") == None
  {
    StripTrimmed(IntSpaces, "_1");
  }

}
