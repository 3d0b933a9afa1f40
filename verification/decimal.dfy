/**
 Decimal text of integers: JavaScript's `String(n)` for an integral number,
 `padStart(2, '0')`, and the reading back of such text (the inverse the
 round-trip lemmas use).
 */
module Decimal {
  import opened Text
  import opened Core

  function DigitChar(d: nat): (c: char)
    requires d < 10
    ensures IsDigit(c)
  {
    (('0' as int) + d) as char
  }

  function DigitValue(c: char): (d: nat)
    requires IsDigit(c)
    ensures d < 10
  {
    (c as int) - ('0' as int)
  }

  lemma DigitRoundTrip(d: nat)
    requires d < 10
    ensures DigitValue(DigitChar(d)) == d
  {
  }

  /** Digits only, possibly none. */
  predicate DigitString(s: string) {
    forall i :: 0 <= i < |s| ==> IsDigit(s[i])
  }

  /** The value of a digit string read most-significant first; "" reads as 0. */
  function ParseNat(s: string): nat
    requires DigitString(s)
  {
    if |s| == 0 then 0
    else ParseNat(s[..|s| - 1]) * 10 + DigitValue(s[|s| - 1])
  }

  /** `String(n)` for a non-negative integer: canonical decimal, no leading zero. */
  function NatToString(n: nat): (r: string)
    ensures AllDigits(r)
    ensures r[0] == '0' ==> n == 0 && |r| == 1
  {
    if n < 10 then [DigitChar(n)]
    else NatToString(n / 10) + [DigitChar(n % 10)]
  }

  /** Reading back the decimal text of `n` gives `n`. */
  lemma {:induction false} ParseNatToString(n: nat)
    ensures ParseNat(NatToString(n)) == n
  {
    var r := NatToString(n);
    if n < 10 {
      assert r[..0] == [];
    } else {
      ParseNatToString(n / 10);
      assert r[..|r| - 1] == NatToString(n / 10);
    }
  }

  /** The decimal text of `n` has fewer than k+1 digits when n < 10^k (k = 1, 2). */
  lemma NatToStringShort(n: nat)
    ensures n < 10 ==> |NatToString(n)| == 1
    ensures n < 100 ==> |NatToString(n)| <= 2
  {
  }

  /** A leading zero does not change the value read. */
  lemma {:induction false} ParseNatLeadingZero(s: string)
    requires DigitString(s)
    ensures ParseNat(['0'] + s) == ParseNat(s)
  {
    var z := ['0'] + s;
    if |s| == 0 {
      assert z[..0] == [];
    } else {
      assert z[..|z| - 1] == ['0'] + s[..|s| - 1];
      ParseNatLeadingZero(s[..|s| - 1]);
    }
  }

  /** `s.padStart(2, '0')`. */
  function PadStart2(s: string): (r: string)
    ensures |r| == if |s| >= 2 then |s| else 2
    ensures DigitString(s) ==> DigitString(r) && ParseNat(r) == ParseNat(s)
  {
    if |s| >= 2 then s
    else
      var r := ['0'] + (if |s| == 1 then s else ['0']);
      if DigitString(s) then
        if |s| == 1 then
          ParseNatLeadingZero(s);
          r
        else
          assert ['0'][..0] == [];
          ParseNatLeadingZero(['0']);
          r
      else r
  }

  /** `String(n)` for any integer: a minus sign before the magnitude when negative. */
  function IntToString(n: int): (r: string)
    ensures |r| > 0
    ensures n >= 0 <==> r[0] != '-'
  {
    if n < 0 then "-" + NatToString(-n) else NatToString(n)
  }

  /** Reads an optionally signed decimal; `None` if the text is not one. */
  function ParseInt(s: string): (r: Option<int>)
  {
    if |s| > 0 && s[0] == '-' then
      if AllDigits(s[1..]) then Some(0 - ParseNat(s[1..]) as int) else None
    else if AllDigits(s) then Some(ParseNat(s))
    else None
  }

  /** Every integer's decimal text reads back as that integer. */
  lemma IntToStringRoundTrip(n: int)
    ensures ParseInt(IntToString(n)) == Some(n)
  {
    if n < 0 {
      ParseNatToString(-n);
      assert IntToString(n)[1..] == NatToString(-n);
    } else {
      ParseNatToString(n);
    }
  }
}
