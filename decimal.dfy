/** `Number.prototype.toString()` on the integers the client puts in a query string,
    with the decimal reading that inverts it. */
module Decimal {

  predicate IsDigit(c: char) {
    '0' <= c <= '9'
  }

  function DigitChar(d: nat): (c: char)
    requires d < 10
    ensures IsDigit(c)
  {
    "0123456789"[d]
  }

  function DigitValue(c: char): (d: nat)
    requires IsDigit(c)
    ensures d < 10
  {
    (c as int - '0' as int) as nat
  }

  /** Base-ten digits of `n`, most significant first, without leading zeros. */
  function FromNat(n: nat): (s: string)
    ensures |s| >= 1
    ensures forall i :: 0 <= i < |s| ==> IsDigit(s[i])
    ensures s[0] == '0' ==> n == 0
    decreases n
  {
    if n < 10 then [DigitChar(n)]
    else FromNat(n / 10) + [DigitChar(n % 10)]
  }

  /** The integer as JavaScript prints it below 10^21 in magnitude (beyond that JavaScript
      switches to exponent notation): a minus sign before the magnitude of a negative. */
  function FromInt(n: int): (s: string)
    ensures |s| >= 1
    ensures s[0] == '-' <==> n < 0
  {
    if n < 0 then "-" + FromNat(-n) else FromNat(n)
  }

  /** The value of a string of decimal digits. */
  function ToNat(s: string): nat
    requires forall i :: 0 <= i < |s| ==> IsDigit(s[i])
  {
    if s == [] then 0 else 10 * ToNat(s[..|s| - 1]) + DigitValue(s[|s| - 1])
  }

  /** The value of an optionally signed decimal string. */
  function ToInt(s: string): int
    requires |s| >= 1
    requires forall i :: 0 < i < |s| ==> IsDigit(s[i])
    requires s[0] != '-' ==> IsDigit(s[0])
  {
    if s[0] == '-' then -(ToNat(s[1..]) as int) else ToNat(s)
  }

  lemma DigitRoundTrip(d: nat)
    requires d < 10
    ensures DigitValue(DigitChar(d)) == d
  {
  }

  lemma {:induction false} FromNatRoundTrip(n: nat)
    ensures ToNat(FromNat(n)) == n
    decreases n
  {
    var s := FromNat(n);
    if n < 10 {
      DigitRoundTrip(n);
      assert s[..|s| - 1] == [];
    } else {
      FromNatRoundTrip(n / 10);
      DigitRoundTrip(n % 10);
      assert s[..|s| - 1] == FromNat(n / 10);
    }
  }

  /** Reading back what `FromInt` printed gives the number: distinct numbers print distinctly. */
  lemma FromIntRoundTrip(n: int)
    ensures ToInt(FromInt(n)) == n
  {
    var s := FromInt(n);
    if n < 0 {
      assert s[1..] == FromNat(-n);
      FromNatRoundTrip(-n);
    } else {
      FromNatRoundTrip(n);
    }
  }

  lemma FromIntInjective(m: int, n: int)
    requires FromInt(m) == FromInt(n)
    ensures m == n
  {
    FromIntRoundTrip(m);
    FromIntRoundTrip(n);
  }
}
