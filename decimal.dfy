/** Base-10 rendering of unsigned integers, as the session label uses it.
    FormatUint is the shape of Go's strconv.FormatUint(n, 10); ParseUint
    reads such a rendering back, and the two lemmas at the end show that
    each undoes the other. */
module Decimal {

  predicate IsDigit(ch: char) {
    '0' <= ch <= '9'
  }

  predicate AllDigits(s: string) {
    forall i :: 0 <= i < |s| ==> IsDigit(s[i])
  }

  /** A non-empty run of digits with no redundant leading zero: the only
      strings FormatUint produces. */
  predicate IsCanonical(s: string) {
    |s| >= 1 && AllDigits(s) && (|s| > 1 ==> s[0] != '0')
  }

  function DigitChar(d: nat): (ch: char)
    requires d < 10
    ensures IsDigit(ch) && ch as int - '0' as int == d
  {
    ('0' as int + d) as char
  }

  function DigitValue(ch: char): (d: nat)
    requires IsDigit(ch)
    ensures d < 10 && DigitChar(d) == ch
  {
    ch as int - '0' as int
  }

  /** The decimal digits of n, most significant first. */
  function FormatUint(n: nat): (s: string)
    ensures IsCanonical(s)
    decreases n
  {
    if n < 10 then [DigitChar(n)] else FormatUint(n / 10) + [DigitChar(n % 10)]
  }

  /** The value of a string of digits, read most significant first. */
  function ParseUint(s: string): nat
    requires AllDigits(s)
  {
    if s == [] then 0 else 10 * ParseUint(s[..|s| - 1]) + DigitValue(s[|s| - 1])
  }

  /** Reading back a rendering gives the number rendered. */
  lemma {:induction false} ParseFormat(n: nat)
    ensures ParseUint(FormatUint(n)) == n
  {
    var s := FormatUint(n);
    if n < 10 {
      assert s[..|s| - 1] == [];
    } else {
      var p := FormatUint(n / 10);
      assert s[..|s| - 1] == p;
      ParseFormat(n / 10);
    }
  }

  /** A canonical digit string whose first digit is not zero stands for a positive number. */
  lemma {:induction false} ParsePositive(s: string)
    requires |s| >= 1 && AllDigits(s) && s[0] != '0'
    ensures ParseUint(s) >= 1
  {
    if |s| > 1 {
      var p := s[..|s| - 1];
      assert p[0] == s[0];
      ParsePositive(p);
    } else {
      assert s[..|s| - 1] == [];
    }
  }

  /** Rendering the value of a canonical string gives that string back, so
      every canonical string is the rendering of exactly one number. */
  lemma {:induction false} FormatParse(s: string)
    requires IsCanonical(s)
    ensures FormatUint(ParseUint(s)) == s
  {
    var last := s[|s| - 1];
    var p := s[..|s| - 1];
    if |s| == 1 {
      assert p == [];
      assert ParseUint(s) == DigitValue(last);
      assert s == [last];
    } else {
      assert p[0] == s[0];
      assert IsCanonical(p);
      ParsePositive(p);
      FormatParse(p);
      var n := ParseUint(s);
      assert n == 10 * ParseUint(p) + DigitValue(last);
      assert n / 10 == ParseUint(p) && n % 10 == DigitValue(last);
      assert s == p + [last];
    }
  }
}
