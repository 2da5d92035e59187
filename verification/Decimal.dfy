/** Decimal numerals. */
module Decimal {
  import opened StringOrder

  predicate IsDigit(c: char) { '0' <= c <= '9' }

  predicate AllDigits(s: string) { forall i :: 0 <= i < |s| ==> IsDigit(s[i]) }

  function DigitChar(d: nat): (c: char)
    requires d < 10
    ensures IsDigit(c)
  {
    ('0' as int + d) as char
  }

  function DigitValue(c: char): nat
    requires IsDigit(c)
  {
    c as int - '0' as int
  }

  function ToString(n: nat): (s: string)
    ensures |s| >= 1 && AllDigits(s)
  {
    if n < 10 then [DigitChar(n)] else ToString(n / 10) + [DigitChar(n % 10)]
  }

  function ParseNat(s: string): nat
    requires AllDigits(s)
  {
    if s == "" then 0 else 10 * ParseNat(s[..|s| - 1]) + DigitValue(s[|s| - 1])
  }

  lemma {:induction false} ParseOfToString(n: nat)
    ensures ParseNat(ToString(n)) == n
  {
    if n >= 10 {
      ParseOfToString(n / 10);
      assert ToString(n)[..|ToString(n)| - 1] == ToString(n / 10);
    } else {
      assert ToString(n)[..0] == "";
    }
  }

  function Zeros(k: nat): (s: string)
    ensures |s| == k && AllDigits(s)
  {
    seq(k, _ => '0')
  }

  /** Pads on the left with zeros up to a width; never shortens. */
  function PadStart(s: string, width: nat): string {
    if |s| >= width then s else Zeros(width - |s|) + s
  }

  lemma {:induction false} ParseLeadingZeros(k: nat, s: string)
    requires AllDigits(s)
    ensures AllDigits(Zeros(k) + s) && ParseNat(Zeros(k) + s) == ParseNat(s)
  {
    if s == "" {
      if k > 0 {
        ParseLeadingZeros(k - 1, "");
        assert Zeros(k)[..k - 1] == Zeros(k - 1);
        assert Zeros(k - 1) + "" == Zeros(k - 1);
      }
      assert Zeros(k) + "" == Zeros(k);
    } else {
      ParseLeadingZeros(k, s[..|s| - 1]);
      assert (Zeros(k) + s)[..k + |s| - 1] == Zeros(k) + s[..|s| - 1];
    }
  }

  lemma ParseOfPadded(n: nat, width: nat)
    ensures AllDigits(PadStart(ToString(n), width)) && ParseNat(PadStart(ToString(n), width)) == n
  {
    ParseOfToString(n);
    if |ToString(n)| < width {
      ParseLeadingZeros(width - |ToString(n)|, ToString(n));
    }
  }

  function Pow10(k: nat): nat { if k == 0 then 1 else 10 * Pow10(k - 1) }

  lemma {:induction false} ToStringLength(n: nat, k: nat)
    requires n < Pow10(k) && k >= 1
    ensures |ToString(n)| <= k
  {
    if n >= 10 {
      ToStringLength(n / 10, k - 1);
    }
  }

  lemma {:induction false} ParseBound(s: string)
    requires AllDigits(s)
    ensures ParseNat(s) < Pow10(|s|)
  {
    if s != "" {
      ParseBound(s[..|s| - 1]);
    }
  }

  lemma TenTimes(d: nat, p: nat)
    ensures 10 * (d * p) == d * (10 * p)
  {
  }

  lemma {:induction false} ParseFirst(s: string)
    requires AllDigits(s) && s != ""
    ensures AllDigits(s[1..]) && ParseNat(s) == DigitValue(s[0]) * Pow10(|s| - 1) + ParseNat(s[1..])
  {
    if |s| > 1 {
      var front, tail := s[..|s| - 1], s[1..];
      ParseFirst(front);
      assert tail[..|s| - 2] == front[1..] && tail[|s| - 2] == s[|s| - 1];
      assert ParseNat(tail) == 10 * ParseNat(front[1..]) + DigitValue(s[|s| - 1]);
      TenTimes(DigitValue(s[0]), Pow10(|s| - 2));
    } else {
      assert s[..0] == "" && s[1..] == "";
    }
  }

  /** On numerals of equal length the string order is the numeric order. */
  lemma {:induction false} OrderOfNumerals(a: string, b: string)
    requires AllDigits(a) && AllDigits(b) && |a| == |b|
    ensures Before(a, b) <==> ParseNat(a) < ParseNat(b)
  {
    if a != "" {
      ParseFirst(a);
      ParseFirst(b);
      OrderOfNumerals(a[1..], b[1..]);
      ParseBound(a[1..]);
      ParseBound(b[1..]);
      LeadingDigitDecides(DigitValue(a[0]), DigitValue(b[0]), Pow10(|a| - 1), ParseNat(a[1..]), ParseNat(b[1..]));
      LeadingDigitDecides(DigitValue(b[0]), DigitValue(a[0]), Pow10(|a| - 1), ParseNat(b[1..]), ParseNat(a[1..]));
    }
  }

  lemma AtLeastOnce(gap: nat, p: nat)
    requires gap >= 1
    ensures gap * p >= p
  {
  }

  lemma Distribute(x: nat, gap: nat, p: nat)
    ensures (x + gap) * p == x * p + gap * p
  {
  }

  lemma LeadingDigitDecides(x: nat, y: nat, p: nat, u: nat, v: nat)
    requires u < p && v < p
    ensures x < y ==> x * p + u < y * p + v
  {
    if x < y {
      AtLeastOnce(y - x, p);
      Distribute(x, y - x, p);
    }
  }
}
