/**
 * Swift's `"\(n)"` for an `Int`: its decimal digits, with a leading '-'
 * when negative.
 */
module Interpolation {

  predicate IsDigit(c: char)
  {
    '0' <= c <= '9'
  }

  function DigitChar(d: nat): (c: char)
    requires d < 10
    ensures IsDigit(c)
  {
    ('0' as int + d) as char
  }

  function DigitValue(c: char): nat
    requires IsDigit(c)
  {
    c as int - '0' as int
  }

  /** The digits of `n`, most significant first, with no leading zeros. */
  function NatDescription(n: nat): (s: string)
    ensures |s| > 0 && forall i :: 0 <= i < |s| ==> IsDigit(s[i])
    ensures (|s| == 1) <==> (n < 10)
  {
    if n < 10 then [DigitChar(n)] else NatDescription(n / 10) + [DigitChar(n % 10)]
  }

  function Description(n: int): (s: string)
    ensures |s| > 0
  {
    if n < 0 then "-" + NatDescription(-n) else NatDescription(n)
  }

  /** Reads a string of digits back as a number. */
  function ParseNat(s: string): nat
    requires forall i :: 0 <= i < |s| ==> IsDigit(s[i])
  {
    if |s| == 0 then 0 else ParseNat(s[..|s| - 1]) * 10 + DigitValue(s[|s| - 1])
  }

  /** The description of a non-negative number reads back as that number. */
  lemma {:induction false} ParseNatDescription(n: nat)
    ensures ParseNat(NatDescription(n)) == n
  {
    if n >= 10 {
      var s := NatDescription(n);
      assert s[..|s| - 1] == NatDescription(n / 10);
      ParseNatDescription(n / 10);
    }
  }

  /** Reads a description back: an optional '-' and then digits. */
  function ParseInt(s: string): int
    requires |s| > 0
    requires s[0] == '-' ==> forall i :: 1 <= i < |s| ==> IsDigit(s[i])
    requires s[0] != '-' ==> forall i :: 0 <= i < |s| ==> IsDigit(s[i])
  {
    if s[0] == '-' then -(ParseNat(s[1..]) as int) else ParseNat(s)
  }

  /** The description of any number reads back as that number. */
  lemma ParseIntDescription(n: int)
    ensures var s := Description(n);
            (s[0] == '-' <==> n < 0) && (forall i :: 1 <= i < |s| ==> IsDigit(s[i]))
            && (s[0] != '-' ==> IsDigit(s[0])) && ParseInt(s) == n
  {
    var s := Description(n);
    if n < 0 {
      assert s[1..] == NatDescription(-n);
      ParseNatDescription(-n);
    } else {
      ParseNatDescription(n);
    }
  }

  /** So different numbers are described differently. */
  lemma DescriptionInjective(m: int, n: int)
    requires m != n
    ensures Description(m) != Description(n)
  {
    ParseIntDescription(m);
    ParseIntDescription(n);
  }

  /** A digit 0-9 is described by exactly one character. */
  lemma DigitDescription(d: int)
    requires 0 <= d <= 9
    ensures Description(d) == [DigitChar(d)]
  {
  }
}
