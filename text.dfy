/**
 * The pieces of string handling the workout description uses: the decimal
 * rendering of a day number (`${n}`), upper-casing of the first letter, and
 * the facts needed to read a description back apart.
 */
module Text {

  predicate IsDigit(c: char) {
    '0' <= c <= '9'
  }

  predicate AllDigits(s: string) {
    forall i :: 0 <= i < |s| ==> IsDigit(s[i])
  }

  function DigitChar(d: nat): (c: char)
    requires d < 10
    ensures IsDigit(c)
  {
    (48 + d) as char
  }

  function DigitValue(c: char): (d: nat)
    requires IsDigit(c)
    ensures d < 10 && DigitChar(d) == c
  {
    (c as int - 48) as nat
  }

  /** The decimal numeral of `n`, as a template literal renders an integer. */
  function DecimalString(n: nat): (s: string)
    ensures |s| > 0 && AllDigits(s)
  {
    if n < 10 then [DigitChar(n)] else DecimalString(n / 10) + [DigitChar(n % 10)]
  }

  /** The number a numeral denotes: the reading that DecimalString inverts. */
  function DecimalValue(s: string): nat
    requires AllDigits(s)
  {
    if s == [] then 0 else DecimalValue(s[..|s| - 1]) * 10 + DigitValue(s[|s| - 1])
  }

  lemma {:induction false} DecimalRoundTrip(n: nat)
    ensures DecimalValue(DecimalString(n)) == n
  {
    var s := DecimalString(n);
    if n >= 10 {
      DecimalRoundTrip(n / 10);
      assert s[..|s| - 1] == DecimalString(n / 10);
    }
  }

  /** Different numbers have different numerals. */
  lemma DecimalStringInjective(m: nat, n: nat)
    ensures DecimalString(m) == DecimalString(n) ==> m == n
  {
    DecimalRoundTrip(m);
    DecimalRoundTrip(n);
  }

  predicate HasNoSpace(s: string) {
    forall i :: 0 <= i < |s| ==> s[i] != ' '
  }

  /** In a word joined to a tail by a space, the space stands right after the
      word and the word's own characters before it. */
  lemma SpacedAt(a: string, x: string, i: nat)
    requires i <= |a|
    ensures (a + " " + x)[i] == if i == |a| then ' ' else a[i]
  {
  }

  /** A word without spaces followed by a space is recovered from the joined
      string: the first space marks where the word ends. */
  lemma {:induction false} SplitAtFirstSpace(a: string, x: string, b: string, y: string)
    requires HasNoSpace(a) && HasNoSpace(b)
    requires a + " " + x == b + " " + y
    ensures a == b && x == y
  {
    var s, t := a + " " + x, b + " " + y;
    if |a| < |b| {
      SpacedAt(a, x, |a|);
      assert false;
    } else if |b| < |a| {
      SpacedAt(b, y, |b|);
      assert false;
    }
    assert a == s[..|a|] && b == t[..|b|];
    assert x == s[|a| + 1..] && y == t[|b| + 1..];
  }

  /** `toUpperCase` on one character, for the letters a to z. */
  function ToUpper(c: char): (u: char)
    ensures 'a' <= c <= 'z' ==> 'A' <= u <= 'Z' && u as int == c as int - 32
    ensures !('a' <= c <= 'z') ==> u == c
  {
    if 'a' <= c <= 'z' then (c as int - 32) as char else c
  }

  /** `s[0].toUpperCase() + s.slice(1)` */
  function Capitalize(s: string): (r: string)
    requires |s| > 0
    ensures |r| == |s| && r[0] == ToUpper(s[0]) && r[1..] == s[1..]
  {
    [ToUpper(s[0])] + s[1..]
  }
}
