/** The two string operations the components rely on: JavaScript's
    `String.prototype.trim`, and the decimal text `Number.prototype.toString`
    gives a millisecond clock reading (used for message and bot ids). */
module Text {

  /** The code points `trim` strips: the ECMAScript WhiteSpace and
      LineTerminator characters. Nothing proved below depends on which
      characters these are: trimming is defined and proved for any class
      `ws` of characters, and `Trim` is its instance for this one. */
  predicate IsWhitespace(c: char) {
    || c == '\t' || c == '\n' || c == '\U{000B}' || c == '\U{000C}' || c == '\r'
    || c == ' ' || c == '\U{00A0}' || c == '\U{1680}' || ('\U{2000}' <= c <= '\U{200A}')
    || c == '\U{2028}' || c == '\U{2029}' || c == '\U{202F}' || c == '\U{205F}'
    || c == '\U{3000}' || c == '\U{FEFF}'
  }

  predicate AllIn(s: string, ws: char -> bool) {
    forall i :: 0 <= i < |s| ==> ws(s[i])
  }

  /** No character of class `ws` at either end. */
  predicate TrimmedBy(s: string, ws: char -> bool) {
    s == [] || (!ws(s[0]) && !ws(s[|s| - 1]))
  }

  /** Drops the leading run of `ws` characters: the result is a suffix of
      `s`, everything cut off is in `ws`, and the result does not start with
      a `ws` character. */
  function TrimStartBy(s: string, ws: char -> bool): (r: string)
    ensures |r| <= |s| && r == s[|s| - |r|..]
    ensures AllIn(s[..|s| - |r|], ws)
    ensures r != [] ==> !ws(r[0])
  {
    if s != [] && ws(s[0]) then
      var r := TrimStartBy(s[1..], ws);
      assert s[..|s| - |r|] == [s[0]] + s[1..][..|s| - 1 - |r|];
      r
    else
      s
  }

  /** Drops the trailing run of `ws` characters: the result is a prefix of
      `s`, everything cut off is in `ws`, and the result does not end with a
      `ws` character. */
  function TrimEndBy(s: string, ws: char -> bool): (r: string)
    ensures |r| <= |s| && r == s[..|r|]
    ensures AllIn(s[|r|..], ws)
    ensures r != [] ==> !ws(r[|r| - 1])
  {
    if s != [] && ws(s[|s| - 1]) then
      var r := TrimEndBy(s[..|s| - 1], ws);
      assert s[|r|..] == s[..|s| - 1][|r|..] + [s[|s| - 1]];
      r
    else
      s
  }

  /** Trimming at both ends: the result has no `ws` character at either end,
      is empty exactly when all of `s` is in `ws`, and is `s` itself when `s`
      is already trimmed. */
  function TrimBy(s: string, ws: char -> bool): (r: string)
    ensures TrimmedBy(r, ws)
    ensures r == [] <==> AllIn(s, ws)
    ensures TrimmedBy(s, ws) ==> r == s
    ensures |r| <= |s|
  {
    TrimByEmptyIff(s, ws);
    TrimEndBy(TrimStartBy(s, ws), ws)
  }

  lemma TrimByEmptyIff(s: string, ws: char -> bool)
    ensures TrimEndBy(TrimStartBy(s, ws), ws) == [] <==> AllIn(s, ws)
  {
    var t := TrimStartBy(s, ws);
    var k := |s| - |t|;
    assert s == s[..k] + t;
    if TrimEndBy(t, ws) == [] {
      assert t[|TrimEndBy(t, ws)|..] == t;
      AllInConcat(s[..k], t, ws);
    }
    assert t != [] ==> t[0] == s[k];
  }

  lemma AllInConcat(a: string, b: string, ws: char -> bool)
    requires AllIn(a, ws) && AllIn(b, ws)
    ensures AllIn(a + b, ws)
  {
    forall i | 0 <= i < |a + b|
      ensures ws((a + b)[i])
    {
      if i < |a| {
        assert (a + b)[i] == a[i];
      } else {
        assert (a + b)[i] == b[i - |a|];
      }
    }
  }

  /** `!s.trim()`: nothing is left once the whitespace is gone, that is,
      every character is whitespace (see `Trim`'s second ensures). */
  predicate Blank(s: string) {
    AllIn(s, IsWhitespace)
  }

  /** A string `trim` would leave as it is: no whitespace at either end. */
  predicate IsTrimmed(s: string) {
    TrimmedBy(s, IsWhitespace)
  }

  /** `s.trim()`: trimmed at both ends, empty exactly when `s` is all
      whitespace, and the identity on strings that are already trimmed. */
  function Trim(s: string): (r: string)
    ensures IsTrimmed(r)
    ensures r == [] <==> Blank(s)
    ensures IsTrimmed(s) ==> r == s
    ensures |r| <= |s|
  {
    TrimBy(s, IsWhitespace)
  }

  /** Trimming twice is trimming once. */
  lemma TrimIdempotent(s: string)
    ensures Trim(Trim(s)) == Trim(s)
  {
  }

  /** `trim` only ever removes whitespace, and only from the two ends: what
      remains is a contiguous piece of `s`. */
  lemma TrimKeepsInfix(s: string)
    ensures exists i, j :: 0 <= i <= j <= |s| && Trim(s) == s[i..j]
              && Blank(s[..i]) && Blank(s[j..])
  {
    var t := TrimStartBy(s, IsWhitespace);
    var i := |s| - |t|;
    var j := i + |Trim(s)|;
    assert Trim(s) == s[i..j];
    assert s[j..] == t[|Trim(s)|..];
  }

  /** The character for decimal digit `d`. */
  function DigitChar(d: nat): (c: char)
    requires d < 10
    ensures '0' <= c <= '9'
  {
    (('0' as int) + d) as char
  }

  predicate IsDigits(s: string) {
    forall i :: 0 <= i < |s| ==> '0' <= s[i] <= '9'
  }

  /** `n.toString()` for a non-negative integer: its decimal digits, most
      significant first, with no leading zero. */
  function DecimalString(n: nat): (r: string)
    ensures r != [] && IsDigits(r)
    ensures r[0] == '0' ==> n == 0
  {
    if n < 10 then [DigitChar(n)] else DecimalString(n / 10) + [DigitChar(n % 10)]
  }

  /** The number a string of decimal digits denotes. */
  function DecimalValue(s: string): nat
    requires IsDigits(s)
  {
    if s == [] then 0
    else 10 * DecimalValue(s[..|s| - 1]) + ((s[|s| - 1] as int) - ('0' as int))
  }

  /** Reading back the decimal text of `n` gives `n`. */
  lemma {:induction false} DecimalRoundTrip(n: nat)
    ensures DecimalValue(DecimalString(n)) == n
  {
    if n >= 10 {
      var s := DecimalString(n);
      assert s[..|s| - 1] == DecimalString(n / 10);
      DecimalRoundTrip(n / 10);
    }
  }

  /** Two clock readings have the same decimal text exactly when they are
      equal. */
  lemma DecimalStringInjective(a: nat, b: nat)
    ensures DecimalString(a) == DecimalString(b) <==> a == b
  {
    if DecimalString(a) == DecimalString(b) {
      DecimalRoundTrip(a);
      DecimalRoundTrip(b);
    }
  }
}
