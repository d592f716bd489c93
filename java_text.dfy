/** The two pieces of `java.lang` text handling the service relies on: `String.split` with a
    pattern that matches one character at a time, and `Short.parseShort` / `Byte.parseByte`. */
module JavaText {
  import opened JavaTypes

  /** The one-character patterns that occur: the regular expression `.` (any character except a
      line terminator) and a single literal character. */
  datatype Delimiter = AnyButLineTerminator | Literal(c: char)

  /** The characters `.` does not match in a `java.util.regex.Pattern` compiled without flags. */
  predicate IsLineTerminator(c: char)
  {
    c == '\n' || c == '\r' || c == '\U{85}' || c == '\U{2028}' || c == '\U{2029}'
  }

  predicate Matches(d: Delimiter, c: char)
  {
    match d
    case AnyButLineTerminator => !IsLineTerminator(c)
    case Literal(x) => c == x
  }

  predicate HasMatch(d: Delimiter, s: string)
  {
    exists i :: 0 <= i < |s| && Matches(d, s[i])
  }

  /** The substrings between successive matches, including the leading, trailing and empty ones:
      one more piece than there are matches. */
  function Pieces(d: Delimiter, s: string): (r: seq<string>)
    ensures |r| >= 1
  {
    if s == [] then [""]
    else
      var rest := Pieces(d, s[1..]);
      if Matches(d, s[0]) then [""] + rest else [[s[0]] + rest[0]] + rest[1..]
  }

  /** `String.split` with limit 0 drops every trailing empty string. */
  function DropTrailingEmpty(xs: seq<string>): (r: seq<string>)
    ensures |r| <= |xs| && r == xs[..|r|]
    ensures r == [] || r[|r| - 1] != ""
    ensures forall k :: |r| <= k < |xs| ==> xs[k] == ""
  {
    if xs != [] && xs[|xs| - 1] == "" then DropTrailingEmpty(xs[..|xs| - 1]) else xs
  }

  /** `s.split(regex)` for a pattern that matches exactly one character: when nothing matches the
      result is `[s]` (so `"".split(...)` is `[""]`), otherwise the pieces without trailing empty ones. */
  function Split(d: Delimiter, s: string): seq<string>
  {
    if HasMatch(d, s) then DropTrailingEmpty(Pieces(d, s)) else [s]
  }

  /** A string free of matches is one piece. */
  lemma {:induction false} PiecesNoMatch(d: Delimiter, s: string)
    requires forall i :: 0 <= i < |s| ==> !Matches(d, s[i])
    ensures Pieces(d, s) == [s]
  {
    if s != [] {
      PiecesNoMatch(d, s[1..]);
      assert [s[0]] + s[1..] == s;
    }
  }

  /** Splitting at the first match: what comes before it is the first piece. */
  lemma {:induction false} PiecesAtMatch(d: Delimiter, x: string, c: char, y: string)
    requires forall i :: 0 <= i < |x| ==> !Matches(d, x[i])
    requires Matches(d, c)
    ensures Pieces(d, x + [c] + y) == [x] + Pieces(d, y)
  {
    if x == [] {
      assert x + [c] + y == [c] + y;
    } else {
      var s := x + [c] + y;
      assert s[0] == x[0] && s[1..] == x[1..] + [c] + y;
      PiecesAtMatch(d, x[1..], c, y);
      assert [x[0]] + x[1..] == x;
    }
  }

  /** When every character matches, every piece is empty. */
  lemma {:induction false} PiecesAllMatch(d: Delimiter, s: string)
    requires forall i :: 0 <= i < |s| ==> Matches(d, s[i])
    ensures Pieces(d, s) == seq(|s| + 1, _ => "")
  {
    if s != [] {
      PiecesAllMatch(d, s[1..]);
    }
  }

  /** A list of empty strings vanishes entirely. */
  lemma {:induction false} DropAllEmpty(n: nat)
    ensures DropTrailingEmpty(seq(n, _ => "")) == []
  {
    if n > 0 {
      assert seq(n, _ => "")[..n - 1] == seq(n - 1, _ => "");
      DropAllEmpty(n - 1);
    }
  }

  /** With the regular expression `.`, any non-empty string free of line terminators splits into
      nothing at all, and the empty string into one empty component. */
  lemma RegexDotSplit(s: string)
    requires forall i :: 0 <= i < |s| ==> !IsLineTerminator(s[i])
    ensures Split(AnyButLineTerminator, s) == if s == "" then [""] else []
  {
    if s != "" {
      assert Matches(AnyButLineTerminator, s[0]);
      PiecesAllMatch(AnyButLineTerminator, s);
      DropAllEmpty(|s| + 1);
    }
  }

  /** Splitting three match-free, non-empty fields joined by a matching character gives them back. */
  lemma SplitThree(d: Delimiter, a: string, b: string, c: string, sep: char)
    requires Matches(d, sep)
    requires forall i :: 0 <= i < |a| ==> !Matches(d, a[i])
    requires forall i :: 0 <= i < |b| ==> !Matches(d, b[i])
    requires forall i :: 0 <= i < |c| ==> !Matches(d, c[i])
    requires c != ""
    ensures Split(d, a + [sep] + b + [sep] + c) == [a, b, c]
  {
    var tail := b + [sep] + c;
    var s := a + [sep] + b + [sep] + c;
    assert s == a + [sep] + tail;
    assert s[|a|] == sep;
    assert HasMatch(d, s);
    PiecesNoMatch(d, c);
    PiecesAtMatch(d, b, sep, c);
    assert Pieces(d, tail) == [b, c];
    PiecesAtMatch(d, a, sep, tail);
    assert Pieces(d, s) == [a, b, c];
  }

  /** Splitting two match-free, non-empty fields joined by a matching character gives them back. */
  lemma SplitTwo(d: Delimiter, a: string, b: string, sep: char)
    requires Matches(d, sep)
    requires forall i :: 0 <= i < |a| ==> !Matches(d, a[i])
    requires forall i :: 0 <= i < |b| ==> !Matches(d, b[i])
    requires b != ""
    ensures Split(d, a + [sep] + b) == [a, b]
  {
    assert (a + [sep] + b)[|a|] == sep;
    PiecesAtMatch(d, a, sep, b);
    PiecesNoMatch(d, b);
  }

  /** A match-free string splits into itself. */
  lemma SplitOne(d: Delimiter, a: string)
    requires forall i :: 0 <= i < |a| ==> !Matches(d, a[i])
    ensures Split(d, a) == [a]
  {
  }

  // ---------------------------------------------------------------------------------------------
  // Decimal parsing, as Integer.parseInt(s, 10) followed by the range check of parseShort/parseByte.

  predicate IsDigit(c: char)
  {
    '0' <= c <= '9'
  }

  function DigitValue(c: char): (v: nat)
    requires IsDigit(c)
    ensures v < 10
  {
    (c as int) - ('0' as int)
  }

  function DigitChar(v: nat): (c: char)
    requires v < 10
    ensures IsDigit(c) && DigitValue(c) == v
  {
    ((('0' as int) + v) as char)
  }

  /** The value of a non-empty run of decimal digits; `None` when it is empty or holds anything else. */
  function DigitsValue(s: string): (r: Option<nat>)
    ensures r.Some? ==> |s| > 0 && forall i :: 0 <= i < |s| ==> IsDigit(s[i])
  {
    if |s| == 0 || !IsDigit(s[|s| - 1]) then None
    else if |s| == 1 then Some(DigitValue(s[0]))
    else
      match DigitsValue(s[..|s| - 1])
      case None => None
      case Some(v) => Some(10 * v + DigitValue(s[|s| - 1]))
  }

  /** `Integer.parseInt(s, 10)` without its 32-bit limit: an optional `-` or `+` sign followed by
      at least one decimal digit; anything else is a `NumberFormatException`, here `None`. */
  function ParseDecimal(s: string): (r: Option<int>)
    ensures r.Some? ==> |s| > 0
  {
    if |s| == 0 then None
    else if s[0] == '-' || s[0] == '+' then
      if |s| == 1 then None
      else
        match DigitsValue(s[1..])
        case None => None
        case Some(v) =>
          var signed: int := if s[0] == '-' then 0 - v else v;
          Some(signed)
    else
      match DigitsValue(s)
      case None => None
      case Some(v) => Some(v)
  }

  /** `Short.parseShort`: a decimal whose value fits a `short`; otherwise a `NumberFormatException`. */
  function ParseShort(s: string): (r: Option<Int16>)
    ensures r.Some? ==> ParseDecimal(s) == Some(r.value as int)
    ensures r.None? ==> ParseDecimal(s).None? || !(-0x8000 <= ParseDecimal(s).value < 0x8000)
  {
    match ParseDecimal(s)
    case Some(v) => if -0x8000 <= v < 0x8000 then Some(v) else None
    case None => None
  }

  /** `Byte.parseByte`: a decimal whose value fits a `byte`; otherwise a `NumberFormatException`. */
  function ParseByte(s: string): (r: Option<Int8>)
    ensures r.Some? ==> ParseDecimal(s) == Some(r.value as int)
    ensures r.None? ==> ParseDecimal(s).None? || !(-0x80 <= ParseDecimal(s).value < 0x80)
  {
    match ParseDecimal(s)
    case Some(v) => if -0x80 <= v < 0x80 then Some(v) else None
    case None => None
  }

  /** The shortest decimal rendering of a natural number, as `Integer.toString`. */
  function ShowNat(n: nat): (s: string)
    ensures |s| > 0 && forall i :: 0 <= i < |s| ==> IsDigit(s[i])
  {
    if n < 10 then [DigitChar(n)] else ShowNat(n / 10) + [DigitChar(n % 10)]
  }

  /** The decimal rendering of an integer, with a `-` for negatives. */
  function ShowInt(n: int): (s: string)
    ensures |s| > 0 && forall i :: 0 <= i < |s| ==> IsDigit(s[i]) || (i == 0 && s[i] == '-')
  {
    if n < 0 then "-" + ShowNat(-n) else ShowNat(n)
  }

  /** Reading the digits back gives the number. */
  lemma {:induction false} DigitsValueShowNat(n: nat)
    ensures DigitsValue(ShowNat(n)) == Some(n)
  {
    if n >= 10 {
      var s := ShowNat(n);
      assert s[..|s| - 1] == ShowNat(n / 10);
      DigitsValueShowNat(n / 10);
    }
  }

  /** Parsing a rendered integer gives it back. */
  lemma ParseDecimalShowInt(n: int)
    ensures ParseDecimal(ShowInt(n)) == Some(n)
  {
    if n < 0 {
      assert ShowInt(n)[1..] == ShowNat(-n);
      DigitsValueShowNat(-n);
    } else {
      DigitsValueShowNat(n);
    }
  }

  /** `Short.parseShort` accepts a rendered integer exactly when it fits 16 bits. */
  lemma ParseShortShowInt(n: int)
    ensures ParseShort(ShowInt(n)) == if -0x8000 <= n < 0x8000 then Some(n) else None
  {
    ParseDecimalShowInt(n);
  }

  /** `Byte.parseByte` accepts a rendered integer exactly when it fits 8 bits. */
  lemma ParseByteShowInt(n: int)
    ensures ParseByte(ShowInt(n)) == if -0x80 <= n < 0x80 then Some(n) else None
  {
    ParseDecimalShowInt(n);
  }
}
