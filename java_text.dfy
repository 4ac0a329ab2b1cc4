/**
 * The few pieces of java.lang.String, Long and Integer that the modelled code relies on:
 * prefix tests, first/last index of a character, trim, join, decimal rendering and parsing,
 * and integer division that truncates toward zero.
 */
module JavaText {
  import opened Wrappers

  // ---------------------------------------------------------------- characters and search

  /** String.startsWith */
  predicate StartsWith(s: string, prefix: string) {
    |prefix| <= |s| && s[..|prefix|] == prefix
  }

  /** String.endsWith */
  predicate EndsWith(s: string, suffix: string) {
    |suffix| <= |s| && s[|s| - |suffix|..] == suffix
  }

  /** String.indexOf(c): the first position of c, None for -1. */
  function IndexOf(s: string, c: char): (r: Option<nat>)
    ensures r.None? <==> c !in s
    ensures r.Some? ==> r.value < |s| && s[r.value] == c && c !in s[..r.value]
  {
    if |s| == 0 then None
    else if s[0] == c then Some(0)
    else
      match IndexOf(s[1..], c)
      case None => None
      case Some(i) =>
        assert s[1..][..i] == s[1..i + 1];
        assert s[..i + 1] == [s[0]] + s[1..i + 1];
        Some(i + 1)
  }

  /** A position holding c with no c before it is the one indexOf finds. */
  lemma IndexOfFirst(s: string, c: char, i: nat)
    requires i < |s| && s[i] == c && c !in s[..i]
    ensures IndexOf(s, c) == Some(i)
  {
    var j := IndexOf(s, c).value;
    assert forall k :: 0 <= k < i ==> s[..i][k] == s[k];
    assert forall k :: 0 <= k < j ==> s[..j][k] == s[k];
  }

  /** String.lastIndexOf(c): the last position of c, None for -1. */
  function LastIndexOf(s: string, c: char): (r: Option<nat>)
    ensures r.None? <==> c !in s
    ensures r.Some? ==> r.value < |s| && s[r.value] == c && c !in s[r.value + 1..]
  {
    if |s| == 0 then None
    else if s[|s| - 1] == c then Some(|s| - 1)
    else
      var r := LastIndexOf(s[..|s| - 1], c);
      assert s == s[..|s| - 1] + [s[|s| - 1]];
      if r.Some? then
        assert s[r.value + 1..] == s[..|s| - 1][r.value + 1..] + [s[|s| - 1]];
        r
      else r
  }

  // ---------------------------------------------------------------- trim

  /** Java's trim removes every character whose code is at most that of the space. */
  predicate IsTrimmable(c: char) {
    c <= ' '
  }

  function TrimStart(s: string): string
  {
    if |s| > 0 && IsTrimmable(s[0]) then TrimStart(s[1..]) else s
  }

  function TrimEnd(s: string): string
  {
    if |s| > 0 && IsTrimmable(s[|s| - 1]) then TrimEnd(s[..|s| - 1]) else s
  }

  /** String.trim */
  function Trim(s: string): string
  {
    TrimEnd(TrimStart(s))
  }

  /** TrimStart removes exactly the leading blank characters. */
  lemma {:induction false} TrimStartResult(s: string)
    ensures var r := TrimStart(s);
      && |r| <= |s| && r == s[|s| - |r|..]
      && (r == [] || !IsTrimmable(r[0]))
      && forall i :: 0 <= i < |s| - |r| ==> IsTrimmable(s[i])
    decreases |s|
  {
    if |s| > 0 && IsTrimmable(s[0]) {
      TrimStartResult(s[1..]);
    }
  }

  /** TrimEnd removes exactly the trailing blank characters. */
  lemma {:induction false} TrimEndResult(s: string)
    ensures var r := TrimEnd(s);
      && |r| <= |s| && r == s[..|r|]
      && (r == [] || !IsTrimmable(r[|r| - 1]))
      && forall i :: |r| <= i < |s| ==> IsTrimmable(s[i])
    decreases |s|
  {
    if |s| > 0 && IsTrimmable(s[|s| - 1]) {
      TrimEndResult(s[..|s| - 1]);
    }
  }

  /**
   * trim returns the part of the string between its leading and its trailing blanks: a
   * substring whose ends are not blank, with only blanks cut around it.
   */
  lemma TrimResult(s: string)
    ensures var r := Trim(s); var a := |s| - |TrimStart(s)|;
      && 0 <= a && a + |r| <= |s| && r == s[a..a + |r|]
      && (forall i :: 0 <= i < a ==> IsTrimmable(s[i]))
      && (forall i :: a + |r| <= i < |s| ==> IsTrimmable(s[i]))
    ensures Trim(s) == [] || (!IsTrimmable(Trim(s)[0]) && !IsTrimmable(Trim(s)[|Trim(s)| - 1]))
  {
    var t := TrimStart(s);
    TrimStartResult(s);
    TrimEndResult(t);
    var r := Trim(s);
    var a := |s| - |t|;
    assert r == t[..|r|] && t == s[a..];
    forall i | a + |r| <= i < |s|
      ensures IsTrimmable(s[i])
    {
      assert s[i] == t[i - a];
    }
  }

  /** trim leaves a string alone whose ends are not blank. */
  lemma TrimmedAlready(s: string)
    requires s == [] || (!IsTrimmable(s[0]) && !IsTrimmable(s[|s| - 1]))
    ensures Trim(s) == s
  {
  }

  // ---------------------------------------------------------------- join

  /** The parts in order, with sep between two neighbours and nowhere else. */
  function Join(parts: seq<string>, sep: string): string {
    if |parts| == 0 then ""
    else if |parts| == 1 then parts[0]
    else Join(parts[..|parts| - 1], sep) + sep + parts[|parts| - 1]
  }

  /** Join with a first part split off. */
  lemma {:induction false} JoinFirst(parts: seq<string>, sep: string)
    requires |parts| >= 2
    ensures Join(parts, sep) == parts[0] + sep + Join(parts[1..], sep)
    decreases |parts|
  {
    if |parts| > 2 {
      JoinFirst(parts[..|parts| - 1], sep);
      assert parts[..|parts| - 1][1..] == parts[1..][..|parts[1..]| - 1];
    }
  }

  // ---------------------------------------------------------------- case-insensitive words

  function ToLowerAscii(c: char): char {
    if 'A' <= c <= 'Z' then (c as int - 'A' as int + 'a' as int) as char else c
  }

  /**
   * Whether equalsIgnoreCase lets the character c stand for the ASCII letter t. Java compares
   * the upper cases, then the lower cases of the upper cases. Besides the ASCII pair, four
   * characters reach an ASCII letter that way: dotless i (U+0131) and long s (U+017F) upper-case
   * to I and S, and dotted capital I (U+0130) and the Kelvin sign (U+212A) lower-case to i and k.
   */
  predicate MatchesLetterIgnoreCase(c: char, t: char) {
    || ToLowerAscii(c) == ToLowerAscii(t)
    || (ToLowerAscii(t) == 'i' && (c == '\U{130}' || c == '\U{131}'))
    || (ToLowerAscii(t) == 's' && c == '\U{17F}')
    || (ToLowerAscii(t) == 'k' && c == '\U{212A}')
  }

  /** String.equalsIgnoreCase against a word written in ASCII letters. */
  predicate EqualsIgnoreCaseWord(s: string, word: string) {
    |s| == |word| && forall i :: 0 <= i < |s| ==> MatchesLetterIgnoreCase(s[i], word[i])
  }

  // ---------------------------------------------------------------- decimal numbers

  predicate IsDigit(c: char) {
    '0' <= c <= '9'
  }

  function DigitChar(d: nat): (c: char)
    requires d < 10
    ensures IsDigit(c)
  {
    ('0' as int + d) as char
  }

  function DigitValue(c: char): nat
    requires IsDigit(c)
  {
    c as int - '0' as int
  }

  /** The decimal digits of n, most significant first, without leading zeros. */
  function Digits(n: nat): (r: string)
    ensures |r| > 0 && forall i :: 0 <= i < |r| ==> IsDigit(r[i])
  {
    if n < 10 then [DigitChar(n)] else Digits(n / 10) + [DigitChar(n % 10)]
  }

  /** The value of a string of decimal digits. */
  function DigitsValue(s: string): nat
    requires forall i :: 0 <= i < |s| ==> IsDigit(s[i])
  {
    if |s| == 0 then 0 else DigitsValue(s[..|s| - 1]) * 10 + DigitValue(s[|s| - 1])
  }

  lemma {:induction false} DigitsValueOfDigits(n: nat)
    ensures DigitsValue(Digits(n)) == n
  {
    if n >= 10 {
      var r := Digits(n);
      assert r[..|r| - 1] == Digits(n / 10);
      DigitsValueOfDigits(n / 10);
    }
  }

  /** Long.toString / Integer.toString in base 10. */
  function DecimalString(n: int): (r: string)
    ensures |r| > 0
    ensures ' ' !in r && '\n' !in r
  {
    var r := if n < 0 then "-" + Digits(-n) else Digits(n);
    assert forall i :: 0 <= i < |r| ==> r[i] == '-' || IsDigit(r[i]);
    r
  }

  /**
   * Integer.valueOf / Long.valueOf: an optional sign, then one or more digits, and a value
   * within [lo, hi]; None stands for the NumberFormatException.
   */
  function ParseDecimal(s: string, lo: int, hi: int): (r: Option<int>)
    ensures r.Some? ==> lo <= r.value <= hi
  {
    if |s| == 0 then None
    else
      var body := if s[0] == '-' || s[0] == '+' then s[1..] else s;
      if |body| == 0 || !(forall i :: 0 <= i < |body| ==> IsDigit(body[i])) then None
      else
        var v: int := if s[0] == '-' then -(DigitsValue(body) as int) else DigitsValue(body);
        if lo <= v <= hi then Some(v) else None
  }

  /** Parsing a rendered number gives the number back. */
  lemma DecimalRoundTrip(n: int, lo: int, hi: int)
    requires lo <= n <= hi
    ensures ParseDecimal(DecimalString(n), lo, hi) == Some(n)
  {
    var s := DecimalString(n);
    if n < 0 {
      assert s[1..] == Digits(-n);
      DigitsValueOfDigits(-n);
    } else {
      DigitsValueOfDigits(n);
    }
  }

  // ---------------------------------------------------------------- arithmetic

  /** Java's integer division of a long: the quotient truncated toward zero. */
  function JavaDiv(a: int, b: int): (q: int)
    requires b != 0
    ensures (a >= 0 && b > 0) ==> q == a / b
    ensures b > 0 && a < 0 ==> q == -((-a) / b)
  {
    var m := (if a < 0 then -a else a) / (if b < 0 then -b else b);
    if (a < 0) != (b < 0) then -m else m
  }
}
