/**
 * The text the responder puts into its error messages: decimal renderings of
 * integers (as `string.Format` writes an `int`), the text of a lint error log,
 * and the containment relation the error-message contracts are stated with.
 */
module Text {

  /** `sub` occurs in `s` starting at position `i`. */
  ghost predicate OccursAt(s: string, sub: string, i: int) {
    0 <= i <= |s| - |sub| && s[i..i + |sub|] == sub
  }

  /** `sub` occurs somewhere inside `s`. */
  ghost predicate Contains(s: string, sub: string) {
    exists i :: OccursAt(s, sub, i)
  }

  /** Whatever stands between a prefix and a suffix is contained in the whole. */
  lemma ContainsInfix(pre: string, sub: string, post: string)
    ensures Contains(pre + sub + post, sub)
  {
    var s := pre + sub + post;
    assert s[|pre|..|pre| + |sub|] == sub;
    assert OccursAt(s, sub, |pre|);
  }

  /** Containment survives putting more text in front. */
  lemma ContainsAfterPrefix(pre: string, s: string, sub: string)
    requires Contains(s, sub)
    ensures Contains(pre + s, sub)
  {
    var i :| OccursAt(s, sub, i);
    var t := pre + s;
    assert t[|pre| + i..|pre| + i + |sub|] == s[i..i + |sub|];
    assert OccursAt(t, sub, |pre| + i);
  }

  predicate IsDigit(c: char) {
    '0' <= c <= '9'
  }

  predicate AllDigits(s: string) {
    forall i :: 0 <= i < |s| ==> IsDigit(s[i])
  }

  function DigitChar(d: nat): (c: char)
    requires d < 10
    ensures IsDigit(c)
  {
    ('0' as int + d) as char
  }

  function DigitValue(c: char): (d: nat)
    requires IsDigit(c)
    ensures d < 10 && DigitChar(d) == c
  {
    c as int - '0' as int
  }

  /** The decimal digits of `n`, most significant first, with no leading zero. */
  function NatToDecimal(n: nat): (r: string)
    ensures |r| >= 1 && AllDigits(r)
    ensures r[0] == '0' ==> n == 0
    decreases n
  {
    if n < 10 then [DigitChar(n)] else NatToDecimal(n / 10) + [DigitChar(n % 10)]
  }

  /** An `int` as `string.Format` renders it: a minus sign, then the digits of the magnitude. */
  function IntToDecimal(n: int): (r: string)
    ensures |r| >= 1
    ensures r[0] == '-' <==> n < 0
  {
    if n < 0 then "-" + NatToDecimal(-n) else NatToDecimal(n)
  }

  /** The value of a non-empty run of digits. */
  ghost function DigitsValue(s: string): nat
    requires |s| >= 1 && AllDigits(s)
    decreases |s|
  {
    if |s| == 1 then DigitValue(s[0])
    else DigitsValue(s[..|s| - 1]) * 10 + DigitValue(s[|s| - 1])
  }

  /** Text that reads as a decimal integer: an optional minus sign, then digits. */
  ghost predicate IsDecimal(s: string) {
    if |s| >= 1 && s[0] == '-' then |s| >= 2 && AllDigits(s[1..])
    else |s| >= 1 && AllDigits(s)
  }

  /** The integer a decimal text denotes; the inverse of `IntToDecimal`. */
  ghost function DecimalValue(s: string): int
    requires IsDecimal(s)
  {
    if s[0] == '-' then -(DigitsValue(s[1..]) as int) else DigitsValue(s)
  }

  lemma {:induction false} NatToDecimalRoundTrip(n: nat)
    ensures DigitsValue(NatToDecimal(n)) == n
    decreases n
  {
    if n >= 10 {
      var s := NatToDecimal(n);
      assert s[..|s| - 1] == NatToDecimal(n / 10);
      NatToDecimalRoundTrip(n / 10);
    }
  }

  /** Reading back the rendering of `n` gives `n`. */
  lemma IntToDecimalRoundTrip(n: int)
    ensures IsDecimal(IntToDecimal(n)) && DecimalValue(IntToDecimal(n)) == n
  {
    if n < 0 {
      var s := IntToDecimal(n);
      assert s[1..] == NatToDecimal(-n);
      NatToDecimalRoundTrip(-n);
    } else {
      NatToDecimalRoundTrip(n);
    }
  }

  /** Distinct integers render as distinct texts, so a message names its number unambiguously. */
  lemma IntToDecimalInjective(a: int, b: int)
    requires IntToDecimal(a) == IntToDecimal(b)
    ensures a == b
  {
    IntToDecimalRoundTrip(a);
    IntToDecimalRoundTrip(b);
  }

  /** The text of a lint error log: each recorded entry on a line of its own. */
  function LogText(entries: seq<string>): (r: string)
    ensures r == "" <==> entries == []
    decreases |entries|
  {
    if entries == [] then "" else entries[0] + "\n" + LogText(entries[1..])
  }

  /** A non-empty log text ends in a line break. */
  lemma {:induction false} LogTextEndsWithNewline(entries: seq<string>)
    requires entries != []
    ensures var t := LogText(entries); t[|t| - 1] == '\n'
    decreases |entries|
  {
    if entries[1..] != [] {
      LogTextEndsWithNewline(entries[1..]);
    }
  }

  /** Every entry of the log appears in its text: a lint failure reports all defects, not the first. */
  lemma {:induction false} LogTextContainsEach(entries: seq<string>, k: nat)
    requires k < |entries|
    ensures Contains(LogText(entries), entries[k])
    decreases |entries|
  {
    if k == 0 {
      ContainsInfix("", entries[0], "\n" + LogText(entries[1..]));
      assert "" + entries[0] + ("\n" + LogText(entries[1..])) == LogText(entries);
    } else {
      LogTextContainsEach(entries[1..], k - 1);
      ContainsAfterPrefix(entries[0] + "\n", LogText(entries[1..]), entries[k]);
    }
  }
}
