/**
 * Decimal text of natural numbers as Python writes it: `str(n)` (and the
 * `{n}` of an f-string) and the zero-padded `{n:0Wd}` form.
 */
module Decimal {

  predicate IsDigit(c: char) {
    '0' <= c <= '9'
  }

  predicate AllDigits(s: string) {
    forall i | 0 <= i < |s| :: IsDigit(s[i])
  }

  function DigitChar(d: nat): (c: char)
    requires d < 10
    ensures IsDigit(c) && DigitValue(c) == d
  {
    (48 + d) as char
  }

  function DigitValue(c: char): (d: nat)
    requires IsDigit(c)
    ensures d < 10
  {
    c as int - 48
  }

  /** `str(n)`: the shortest decimal text of `n`, without leading zeros. */
  function NatToString(n: nat): (s: string)
    ensures |s| >= 1 && AllDigits(s)
    ensures |s| > 1 ==> s[0] != '0'
    ensures n < 10 <==> |s| == 1
  {
    if n < 10 then [DigitChar(n)] else NatToString(n / 10) + [DigitChar(n % 10)]
  }

  /** The value of a string of decimal digits (leading zeros allowed; "" is 0). */
  function ParseDigits(s: string): nat
    requires AllDigits(s)
  {
    if s == [] then 0 else ParseDigits(s[..|s| - 1]) * 10 + DigitValue(s[|s| - 1])
  }

  /** Reading back the text of `n` gives `n`. */
  lemma {:induction false} ParseNatToString(n: nat)
    ensures ParseDigits(NatToString(n)) == n
  {
    var s := NatToString(n);
    if n >= 10 {
      ParseNatToString(n / 10);
      assert s[..|s| - 1] == NatToString(n / 10);
    }
  }

  /** Different numbers are written differently. */
  lemma NatToStringInjective(a: nat, b: nat)
    ensures NatToString(a) == NatToString(b) <==> a == b
  {
    if NatToString(a) == NatToString(b) {
      ParseNatToString(a);
      ParseNatToString(b);
    }
  }

  function Zeros(k: nat): (s: string)
    ensures |s| == k && forall i | 0 <= i < k :: s[i] == '0'
  {
    if k == 0 then [] else Zeros(k - 1) + ['0']
  }

  /** `f"{n:0{width}d}"`: the text of `n`, left-padded with zeros to at least `width` characters. */
  function ZeroPad(n: nat, width: nat): (s: string)
    ensures AllDigits(s)
  {
    var t := NatToString(n);
    if |t| < width then Zeros(width - |t|) + t else t
  }

  /** Padding only adds characters up to the width and never changes the value. */
  lemma ZeroPadMeaning(n: nat, width: nat)
    ensures |ZeroPad(n, width)| == if |NatToString(n)| < width then width else |NatToString(n)|
    ensures ParseDigits(ZeroPad(n, width)) == n
  {
    var t := NatToString(n);
    ParseNatToString(n);
    if |t| < width {
      LeadingZerosDoNotCount(width - |t|, t);
    }
  }

  lemma {:induction false} LeadingZerosDoNotCount(k: nat, t: string)
    requires AllDigits(t)
    ensures ParseDigits(Zeros(k) + t) == ParseDigits(t)
  {
    if t == [] {
      assert Zeros(k) + t == Zeros(k);
      ZerosParseToZero(k);
    } else {
      var u := Zeros(k) + t;
      assert u[..|u| - 1] == Zeros(k) + t[..|t| - 1];
      LeadingZerosDoNotCount(k, t[..|t| - 1]);
    }
  }

  lemma {:induction false} ZerosParseToZero(k: nat)
    ensures ParseDigits(Zeros(k)) == 0
  {
    if k > 0 {
      assert Zeros(k)[..k - 1] == Zeros(k - 1);
      ZerosParseToZero(k - 1);
    }
  }

  /** Below `10^width`, padding to `width` gives exactly `width` digits. */
  lemma ZeroPadWidth(n: nat, width: nat)
    requires width >= 1 && n < Pow10(width)
    ensures |ZeroPad(n, width)| == width
  {
    NatToStringLength(n, width);
  }

  function Pow10(k: nat): (p: nat)
    ensures p >= 1
  {
    if k == 0 then 1 else 10 * Pow10(k - 1)
  }

  lemma {:induction false} NatToStringLength(n: nat, k: nat)
    requires k >= 1
    ensures |NatToString(n)| <= k <==> n < Pow10(k)
  {
    if n < 10 {
      assert Pow10(k) >= 10 by { Pow10Monotone(1, k); }
    } else if k > 1 {
      NatToStringLength(n / 10, k - 1);
    }
  }

  lemma {:induction false} Pow10Monotone(i: nat, j: nat)
    requires i <= j
    ensures Pow10(i) <= Pow10(j)
  {
    if i < j {
      Pow10Monotone(i, j - 1);
    }
  }
}
