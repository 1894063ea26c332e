/** Decimal numerals. */
module Numerals {
  predicate IsDigit(c: char) { '0' <= c <= '9' }

  function DigitValue(c: char): (v: nat)
    requires IsDigit(c)
    ensures v < 10
  {
    (c as int) - ('0' as int)
  }

  function Digit(v: nat): (c: char)
    requires v < 10
    ensures IsDigit(c) && DigitValue(c) == v
  {
    (('0' as int) + v) as char
  }

  /** A number without padding, as String(n) and %d print it. */
  function Decimal(n: nat): (s: string)
    ensures s != "" && forall i :: 0 <= i < |s| ==> IsDigit(s[i])
  {
    if n < 10 then [Digit(n)] else Decimal(n / 10) + [Digit(n % 10)]
  }

  function DecimalValue(s: string): nat
    requires forall i :: 0 <= i < |s| ==> IsDigit(s[i])
  {
    if s == "" then 0 else 10 * DecimalValue(s[..|s| - 1]) + DigitValue(s[|s| - 1])
  }

  lemma {:induction false} DecimalReadsBack(n: nat)
    ensures DecimalValue(Decimal(n)) == n
  {
    if n < 10 {
      assert Decimal(n)[..0] == "";
    } else {
      DecimalReadsBack(n / 10);
      assert Decimal(n)[..|Decimal(n)| - 1] == Decimal(n / 10);
    }
  }

  function PowerOfTen(k: nat): nat { if k == 0 then 1 else 10 * PowerOfTen(k - 1) }

  lemma {:induction false} DecimalLength(n: nat, k: nat)
    requires 0 < k && n < PowerOfTen(k)
    ensures |Decimal(n)| <= k
  {
    if n >= 10 { DecimalLength(n / 10, k - 1); }
  }

  function Zeros(n: nat): (s: string)
    ensures |s| == n && forall i :: 0 <= i < n ==> s[i] == '0'
  {
    seq(n, i => '0')
  }

  /** %0kd. */
  function ZeroPadded(n: nat, k: nat): (s: string)
    ensures forall i :: 0 <= i < |s| ==> IsDigit(s[i])
  {
    var s := Decimal(n);
    if |s| >= k then s else Zeros(k - |s|) + s
  }

  lemma {:induction false} LeadingZeros(z: nat, s: string)
    requires forall i :: 0 <= i < |s| ==> IsDigit(s[i])
    ensures var padded := Zeros(z) + s;
      (forall i :: 0 <= i < |padded| ==> IsDigit(padded[i])) && DecimalValue(padded) == DecimalValue(s)
    decreases |s|, z
  {
    var padded := Zeros(z) + s;
    if s != "" {
      LeadingZeros(z, s[..|s| - 1]);
      assert padded[..|padded| - 1] == Zeros(z) + s[..|s| - 1];
    } else if z > 0 {
      LeadingZeros(z - 1, s);
      assert padded[..|padded| - 1] == Zeros(z - 1) + s;
    }
  }

  /** A padded number below 10^k has exactly k digits and keeps its value. */
  lemma ZeroPaddedReadsBack(n: nat, k: nat)
    requires 0 < k && n < PowerOfTen(k)
    ensures |ZeroPadded(n, k)| == k && DecimalValue(ZeroPadded(n, k)) == n
  {
    DecimalLength(n, k);
    DecimalReadsBack(n);
    LeadingZeros(k - |Decimal(n)|, Decimal(n));
  }
}
