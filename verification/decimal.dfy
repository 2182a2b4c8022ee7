/** Decimal rendering of integers, as Swift's string interpolation `"\(n)"`
    writes an `Int`: an optional leading '-' followed by the digits of the
    magnitude, without leading zeros. `ParseInt` is its inverse and is used
    to show that rendered numbers are never confused with one another.
 */
module Decimal {

  import opened Optional

  predicate IsDigit(c: char) {
    '0' <= c <= '9'
  }

  function DigitChar(k: nat): (c: char)
    requires k < 10
    ensures IsDigit(c)
  {
    ['0', '1', '2', '3', '4', '5', '6', '7', '8', '9'][k]
  }

  function DigitValue(c: char): (k: nat)
    requires IsDigit(c)
    ensures k < 10
  {
    (c as int - '0' as int) as nat
  }

  lemma DigitRoundTrip(k: nat)
    requires k < 10
    ensures DigitValue(DigitChar(k)) == k
  {
  }

  /** A digit string as an integer is written: at least one digit, and no
      leading zero unless the number is zero itself. */
  predicate IsCanonical(s: string) {
    |s| >= 1 && (forall i :: 0 <= i < |s| ==> IsDigit(s[i])) && (s[0] != '0' || |s| == 1)
  }

  /** The digits of `n`, most significant first, with no leading zero. */
  function NatToString(n: nat): (s: string)
    ensures |s| >= 1
    ensures forall i :: 0 <= i < |s| ==> IsDigit(s[i])
    ensures s[0] == '0' ==> n == 0
    ensures IsCanonical(s)
    decreases n
  {
    if n < 10 then [DigitChar(n)]
    else NatToString(n / 10) + [DigitChar(n % 10)]
  }

  /** `"\(n)"` for a Swift `Int`. */
  function IntToString(n: int): (s: string)
    ensures |s| >= 1
    ensures n < 0 <==> s[0] == '-'
  {
    if n < 0 then "-" + NatToString(-n) else NatToString(n)
  }

  /** The value of a string of decimal digits. */
  function ParseNat(s: string): (n: nat)
    requires forall i :: 0 <= i < |s| ==> IsDigit(s[i])
    decreases |s|
  {
    if |s| == 0 then 0
    else ParseNat(s[..|s| - 1]) * 10 + DigitValue(s[|s| - 1])
  }

  /** Reads back what `IntToString` writes; `None` for anything else,
      including leading zeros and "-0". */
  function ParseInt(s: string): (r: Option<int>)
  {
    if |s| >= 2 && s[0] == '-' && s[1] != '0' && IsCanonical(s[1..]) then
      var magnitude: int := ParseNat(s[1..]);
      Some(-magnitude)
    else if IsCanonical(s) then
      Some(ParseNat(s))
    else
      None
  }

  lemma {:induction false} NatRoundTrip(n: nat)
    ensures ParseNat(NatToString(n)) == n
    decreases n
  {
    if n < 10 {
      DigitRoundTrip(n);
    } else {
      var s := NatToString(n);
      assert s[..|s| - 1] == NatToString(n / 10);
      assert s[|s| - 1] == DigitChar(n % 10);
      NatRoundTrip(n / 10);
      DigitRoundTrip(n % 10);
    }
  }

  lemma DigitCharOfValue(c: char)
    requires IsDigit(c)
    ensures DigitChar(DigitValue(c)) == c
  {
  }

  /** A digit string without a leading zero has a positive value. */
  lemma {:induction false} ParseNatPositive(s: string)
    requires |s| >= 1 && forall i :: 0 <= i < |s| ==> IsDigit(s[i])
    requires s[0] != '0'
    ensures ParseNat(s) >= 1
    decreases |s|
  {
    if |s| > 1 {
      ParseNatPositive(s[..|s| - 1]);
    }
  }

  /** Writing out the value of a canonical digit string gives it back. */
  lemma {:induction false} CanonicalRoundTrip(s: string)
    requires IsCanonical(s)
    ensures NatToString(ParseNat(s)) == s
    decreases |s|
  {
    var c := s[|s| - 1];
    DigitCharOfValue(c);
    if |s| > 1 {
      var p := s[..|s| - 1];
      assert IsCanonical(p);
      ParseNatPositive(p);
      CanonicalRoundTrip(p);
      var n := ParseNat(s);
      assert n / 10 == ParseNat(p) && n % 10 == DigitValue(c);
      assert s == p + [c];
    }
  }

  lemma ParseIntNonNegative(t: string)
    requires IsCanonical(t)
    ensures ParseInt(t) == Some(ParseNat(t) as int)
  {
    assert IsDigit(t[0]);
  }

  lemma ParseIntNegative(t: string)
    requires IsCanonical(t) && t[0] != '0'
    ensures ParseInt("-" + t) == Some(0 - ParseNat(t))
  {
    assert ("-" + t)[1..] == t;
  }

  lemma NegativeRoundTrip(n: int)
    requires n < 0
    ensures ParseInt("-" + NatToString(-n)) == Some(n)
  {
    var m: nat := -n;
    var t := NatToString(m);
    assert IsCanonical(t) && t[0] != '0';
    NatRoundTrip(m);
    ParseIntNegative(t);
  }

  lemma NonNegativeRoundTrip(n: nat)
    ensures ParseInt(NatToString(n)) == Some(n)
  {
    NatRoundTrip(n);
    ParseIntNonNegative(NatToString(n));
  }

  /** Every integer is read back from its rendering. */
  lemma IntRoundTrip(n: int)
    ensures ParseInt(IntToString(n)) == Some(n)
  {
    if n < 0 {
      NegativeRoundTrip(n);
    } else {
      NonNegativeRoundTrip(n);
    }
  }

  /** A string `ParseInt` reads as `n` is the text `IntToString` writes
      for `n`. */
  lemma ParsedIsRendering(s: string, n: int)
    requires ParseInt(s) == Some(n)
    ensures s == IntToString(n)
  {
    if |s| >= 2 && s[0] == '-' && s[1] != '0' && IsCanonical(s[1..]) {
      var t := s[1..];
      ParseNatPositive(t);
      CanonicalRoundTrip(t);
      var magnitude: int := ParseNat(t);
      assert n == -magnitude && n < 0;
      assert s == "-" + t;
    } else {
      assert IsCanonical(s) && n == ParseNat(s);
      CanonicalRoundTrip(s);
    }
  }

  /** `ParseInt` accepts exactly the renderings of integers: a string reads
      back as `n` if and only if it is the text `IntToString` writes for `n`. */
  lemma ParseIntExact(s: string, n: int)
    ensures ParseInt(s) == Some(n) <==> s == IntToString(n)
  {
    if s == IntToString(n) {
      IntRoundTrip(n);
    }
    if ParseInt(s) == Some(n) {
      ParsedIsRendering(s, n);
    }
  }

  /** Leading zeros and a signed zero are not renderings of any integer. */
  lemma ParseIntRejectsNonCanonical()
    ensures ParseInt("07") == None && ParseInt("-0") == None && ParseInt("-07") == None
    ensures ParseInt("7") == Some(7) && ParseInt("-7") == Some(-7) && ParseInt("0") == Some(0)
  {
  }

  /** Two integers render the same only when they are equal. */
  lemma IntToStringInjective(a: int, b: int)
    ensures IntToString(a) == IntToString(b) <==> a == b
  {
    if IntToString(a) == IntToString(b) {
      IntRoundTrip(a);
      IntRoundTrip(b);
    }
  }
}
