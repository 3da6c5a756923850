/**
  String operations the pages use, with the meaning JavaScript gives them:
  `trim`, `split` on one character, number-to-string rendering and `parseInt`.
  Strings are sequences of Unicode scalar values (Dafny's `char`).
 */
module Text {
  import opened Wrappers

  /** The WhiteSpace and LineTerminator code points of ECMAScript: what `trim` strips. */
  predicate IsWhitespace(c: char) {
    || c == '\t' || c == '\n' || c == '\U{000B}' || c == '\U{000C}' || c == '\r' || c == ' '
    || c == '\U{00A0}' || c == '\U{1680}' || ('\U{2000}' <= c <= '\U{200A}')
    || c == '\U{2028}' || c == '\U{2029}' || c == '\U{202F}' || c == '\U{205F}'
    || c == '\U{3000}' || c == '\U{FEFF}'
  }

  /** Every character is whitespace; the empty string is blank too. */
  predicate IsBlank(s: string) {
    forall i :: 0 <= i < |s| ==> IsWhitespace(s[i])
  }

  /** `s.trimStart()`: the suffix left after the leading whitespace. */
  function TrimStart(s: string): (r: string)
    ensures |r| <= |s| && r == s[|s| - |r|..]
    ensures IsBlank(s[..|s| - |r|])
    ensures r == [] || !IsWhitespace(r[0])
  {
    if s != [] && IsWhitespace(s[0]) then TrimStart(s[1..]) else s
  }

  /** `s.trimEnd()`: the prefix left before the trailing whitespace. */
  function TrimEnd(s: string): (r: string)
    ensures |r| <= |s| && r == s[..|r|]
    ensures IsBlank(s[|r|..])
    ensures r == [] || !IsWhitespace(r[|r| - 1])
  {
    if s != [] && IsWhitespace(s[|s| - 1]) then TrimEnd(s[..|s| - 1]) else s
  }

  /**
    `s.trim()`: the result is a slice of `s` whose two ends are not whitespace,
    and everything cut away on either side is whitespace. It is empty exactly
    when `s` is blank, which is what JavaScript's `if (!s.trim())` tests.
   */
  function Trim(s: string): (r: string)
    ensures r == [] <==> IsBlank(s)
    ensures r != [] ==> !IsWhitespace(r[0]) && !IsWhitespace(r[|r| - 1])
  {
    var t := TrimStart(s);
    var r := TrimEnd(t);
    assert t != [] ==> t[0] == s[|s| - |t|];
    assert t == [] ==> s[..|s|] == s;
    assert r == [] ==> t[|r|..] == t;
    r
  }

  /** What `trim` cuts away on either side of its result is whitespace. */
  lemma TrimCutsOnlyWhitespace(s: string)
    ensures TrimmedAt(s, Trim(s), |s| - |TrimStart(s)|)
  {
    var t := TrimStart(s);
    var r := TrimEnd(t);
    assert Trim(s) == r;
    BlankAround(s, t, r);
  }

  /** A blank-bounded prefix `r` of a blank-bounded suffix `t` of `s` stands in `s` with blanks around it. */
  lemma BlankAround(s: string, t: string, r: string)
    requires |t| <= |s| && t == s[|s| - |t|..] && IsBlank(s[..|s| - |t|])
    requires |r| <= |t| && r == t[..|r|] && IsBlank(t[|r|..])
    ensures TrimmedAt(s, r, |s| - |t|)
  {
    var i := |s| - |t|;
    assert s[i..i + |r|] == t[..|r|];
    assert s[i + |r|..] == t[|r|..];
  }

  /** `r` stands at offset `i` of `s`, with blank text before and after it. */
  ghost predicate TrimmedAt(s: string, r: string, i: int) {
    && 0 <= i && i + |r| <= |s|
    && s[i..i + |r|] == r
    && IsBlank(s[..i])
    && IsBlank(s[i + |r|..])
  }

  /** A string with no whitespace at either end is its own trimmed form. */
  lemma {:induction false} TrimOfTrimmed(s: string)
    requires s == [] || (!IsWhitespace(s[0]) && !IsWhitespace(s[|s| - 1]))
    ensures Trim(s) == s
  {
  }

  /** Trimming twice is trimming once. */
  lemma TrimIdempotent(s: string)
    ensures Trim(Trim(s)) == Trim(s)
  {
    TrimOfTrimmed(Trim(s));
  }

  /** Joins `parts` with `sep` between neighbours: `parts.join(sep)`. */
  function Join(parts: seq<string>, sep: char): (r: string)
    requires |parts| >= 1
    ensures parts[0] <= r
    ensures |parts| > 1 ==> |r| > |parts[0]| && r[|parts[0]|] == sep
  {
    if |parts| == 1 then parts[0] else parts[0] + [sep] + Join(parts[1..], sep)
  }

  /** Joining parts free of the separator puts exactly one separator between neighbours. */
  lemma {:induction false} JoinCount(parts: seq<string>, sep: char)
    requires |parts| >= 1
    requires forall i :: 0 <= i < |parts| ==> sep !in parts[i]
    ensures multiset(Join(parts, sep))[sep] == |parts| - 1
  {
    if |parts| > 1 {
      assert forall i :: 0 <= i < |parts| - 1 ==> parts[1..][i] == parts[i + 1];
      JoinCount(parts[1..], sep);
      var tail := Join(parts[1..], sep);
      assert Join(parts, sep) == parts[0] + [sep] + tail;
      assert multiset(parts[0] + [sep] + tail) == multiset(parts[0]) + multiset([sep]) + multiset(tail);
    }
  }

  /**
    `s.split(sep)` for a one-character separator: the text between
    consecutive separators, so there is at least one part and no part
    contains the separator.
   */
  function Split(s: string, sep: char): (parts: seq<string>)
    ensures |parts| >= 1
    ensures forall i :: 0 <= i < |parts| ==> sep !in parts[i]
  {
    if s == [] then [[]]
    else
      var rest := Split(s[1..], sep);
      if s[0] == sep then [[]] + rest
      else [[s[0]] + rest[0]] + rest[1..]
  }

  /** `s.split(sep).join(sep) == s`: splitting loses nothing. */
  lemma {:induction false} SplitJoin(s: string, sep: char)
    ensures Join(Split(s, sep), sep) == s
  {
    if s != [] {
      SplitJoin(s[1..], sep);
      var rest := Split(s[1..], sep);
      assert s == [s[0]] + s[1..];
      if s[0] == sep {
        assert ([[]] + rest)[1..] == rest;
      } else {
        var parts := [[s[0]] + rest[0]] + rest[1..];
        assert parts[1..] == rest[1..];
        assert |rest| > 1 ==> Join(rest, sep) == rest[0] + [sep] + Join(rest[1..], sep);
      }
    }
  }

  /** `s.split(sep)` has one more part than `s` has separators. */
  lemma {:induction false} SplitCount(s: string, sep: char)
    ensures |Split(s, sep)| == multiset(s)[sep] + 1
  {
    if s != [] {
      SplitCount(s[1..], sep);
      assert s == [s[0]] + s[1..];
      assert multiset(s) == multiset([s[0]]) + multiset(s[1..]);
    }
  }

  /** The first part of `s.split(sep)` is the prefix of `s` before the first `sep`. */
  lemma FirstPartOfSplit(s: string, sep: char)
    ensures var p := Split(s, sep)[0];
      p <= s && sep !in p && (|p| < |s| ==> s[|p|] == sep)
  {
    var parts := Split(s, sep);
    SplitJoin(s, sep);
    if |parts| > 1 {
      assert s == parts[0] + [sep] + Join(parts[1..], sep);
    }
  }

  predicate IsDigit(c: char) {
    '0' <= c <= '9'
  }

  function DigitChar(d: nat): (c: char)
    requires d < 10
    ensures IsDigit(c) && DigitValue(c) == d
  {
    ('0' as int + d) as char
  }

  /** The value of `c` as a digit of radix up to 36 (`0-9`, `a-z`, `A-Z`); 36 when it is no digit. */
  function DigitValue(c: char): nat {
    if '0' <= c <= '9' then c as int - '0' as int
    else if 'a' <= c <= 'z' then c as int - 'a' as int + 10
    else if 'A' <= c <= 'Z' then c as int - 'A' as int + 10
    else 36
  }

  predicate IsDigitIn(c: char, radix: nat) {
    DigitValue(c) < radix
  }

  /** The number the digit string `digits` denotes in `radix`. */
  function ValueIn(digits: string, radix: nat): nat {
    if digits == [] then 0
    else ValueIn(digits[..|digits| - 1], radix) * radix + DigitValue(digits[|digits| - 1])
  }

  /** A non-empty run of decimal digits with no leading zero. */
  predicate Canonical(d: string) {
    && d != []
    && (forall i :: 0 <= i < |d| ==> IsDigit(d[i]))
    && (d[0] == '0' ==> d == "0")
  }

  /**
    `String(n)` for a natural number: decimal digits without a leading zero,
    denoting `n`.
   */
  function NatToDecimal(n: nat): (r: string)
    ensures Canonical(r)
    ensures ValueIn(r, 10) == n
  {
    if n < 10 then [DigitChar(n)]
    else
      var front := NatToDecimal(n / 10);
      var r := front + [DigitChar(n % 10)];
      assert r[..|r| - 1] == front;
      r
  }

  /** `String(i)` for an integer: a minus sign before the digits of a negative number. */
  function IntToDecimal(i: int): (r: string)
    ensures r != []
    ensures r[0] == '-' <==> i < 0
    ensures i < 0 ==> Canonical(r[1..]) && ValueIn(r[1..], 10) == -i
    ensures i >= 0 ==> Canonical(r) && ValueIn(r, 10) == i
  {
    if i < 0 then
      var d := NatToDecimal(-i);
      assert ("-" + d)[1..] == d;
      "-" + d
    else NatToDecimal(i)
  }

  /** The longest prefix of `s` made of digits of `radix`. */
  function DigitPrefix(s: string, radix: nat): (r: string)
    ensures r <= s
    ensures forall i :: 0 <= i < |r| ==> IsDigitIn(r[i], radix)
    ensures |r| < |s| ==> !IsDigitIn(s[|r|], radix)
  {
    if s != [] && IsDigitIn(s[0], radix) then [s[0]] + DigitPrefix(s[1..], radix) else []
  }

  /**
    `parseInt(s)` without a radix argument, as ECMAScript defines it: leading
    whitespace is skipped, one `+` or `-` is read, a `0x`/`0X` prefix selects
    radix 16 (radix 10 otherwise), and the longest run of digits that follows
    is the number. No digits at all gives NaN, here `None`.
   */
  function ParseInt(s: string): (r: Option<int>)
    ensures r.Some? ==> TrimStart(s) != []
    ensures r.Some? && r.value < 0 ==> TrimStart(s)[0] == '-'
    ensures var t := TrimStart(s);
      t != [] && IsDigit(t[0]) && (|t| < 2 || (t[1] != 'x' && t[1] != 'X')) ==> r.Some? && r.value >= 0
  {
    ParseSigned(TrimStart(s))
  }

  /** `parseInt` after the leading whitespace: an optional sign, then the magnitude. */
  function ParseSigned(t: string): (r: Option<int>)
    ensures r.Some? ==> t != []
    ensures r.Some? && r.value < 0 ==> t[0] == '-'
    ensures t != [] && IsDigit(t[0]) && (|t| < 2 || (t[1] != 'x' && t[1] != 'X')) ==> r.Some? && r.value >= 0
  {
    var negative := t != [] && t[0] == '-';
    var unsigned := if t != [] && (t[0] == '-' || t[0] == '+') then t[1..] else t;
    var magnitude := ParseMagnitude(unsigned);
    if magnitude.None? then None
    else if negative then Some(-(magnitude.value as int))
    else Some(magnitude.value as int)
  }

  /** The unsigned part of `parseInt`: radix 16 after `0x`/`0X`, else radix 10. */
  function ParseMagnitude(u: string): (r: Option<nat>)
    ensures r.Some? ==> u != []
    ensures u != [] && IsDigit(u[0]) && (|u| < 2 || (u[1] != 'x' && u[1] != 'X')) ==> r.Some?
  {
    if |u| >= 2 && u[0] == '0' && (u[1] == 'x' || u[1] == 'X') then ParseDigits(u[2..], 16)
    else ParseDigits(u, 10)
  }

  /** The value of the longest run of digits of `radix` at the head of `u`; none at all is `NaN`. */
  function ParseDigits(u: string, radix: nat): (r: Option<nat>)
    ensures r.None? <==> u == [] || !IsDigitIn(u[0], radix)
  {
    var digits := DigitPrefix(u, radix);
    if digits == [] then None else Some(ValueIn(digits, radix))
  }

  lemma {:induction false} DigitPrefixOfDigits(s: string, rest: string)
    requires forall i :: 0 <= i < |s| ==> IsDigit(s[i])
    requires rest != [] ==> !IsDigit(rest[0])
    ensures DigitPrefix(s + rest, 10) == s
  {
    if s != [] {
      assert (s + rest)[1..] == s[1..] + rest;
      DigitPrefixOfDigits(s[1..], rest);
    } else {
      assert s + rest == rest;
    }
  }

  /**
    `parseInt(String(i) + rest) == i` when `rest` does not continue the
    number: the decimal rendering of an integer parses back to it, alone or
    at the head of a longer text.
   */
  lemma ParseIntOfDecimal(i: int, rest: string)
    requires rest != [] ==> !IsDigit(rest[0]) && rest[0] != 'x' && rest[0] != 'X'
    ensures ParseInt(IntToDecimal(i) + rest) == Some(i)
  {
    if i < 0 {
      var d := NatToDecimal(-i);
      assert IntToDecimal(i) == "-" + d;
      MagnitudeOfDecimal(d, rest);
      assert IntToDecimal(i) + rest == "-" + (d + rest);
      ParseNegative(d + rest, -i);
    } else {
      var d := NatToDecimal(i);
      assert IntToDecimal(i) == d;
      MagnitudeOfDecimal(d, rest);
      ParseNonNegative(d + rest, i);
    }
  }

  /** A minus sign before a number is read as its negation. */
  lemma ParseNegative(u: string, m: nat)
    requires u != [] && IsDigit(u[0]) && ParseMagnitude(u) == Some(m)
    ensures ParseInt("-" + u) == Some(-(m as int))
  {
    var s := "-" + u;
    assert s[0] == '-' && s[1..] == u;
    NoLeadingWhitespace(s);
  }

  /** A number that starts with a digit is read as it is. */
  lemma ParseNonNegative(u: string, m: nat)
    requires u != [] && IsDigit(u[0]) && ParseMagnitude(u) == Some(m)
    ensures ParseInt(u) == Some(m)
  {
    NoLeadingWhitespace(u);
  }

  lemma NoLeadingWhitespace(s: string)
    requires s != [] && !IsWhitespace(s[0])
    ensures TrimStart(s) == s
  {
  }

  /** The digits of `String(n)`, followed by text that does not continue them, read as `n`. */
  lemma MagnitudeOfDecimal(d: string, rest: string)
    requires Canonical(d)
    requires rest != [] ==> !IsDigit(rest[0]) && rest[0] != 'x' && rest[0] != 'X'
    ensures IsDigit((d + rest)[0])
    ensures ParseMagnitude(d + rest) == Some(ValueIn(d, 10))
  {
    var u := d + rest;
    assert u[0] == d[0];
    assert |u| >= 2 && u[0] == '0' ==> u[1] == rest[0];
    DigitPrefixOfDigits(d, rest);
  }
}
