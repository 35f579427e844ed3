/** The base-10 renderings the host collector puts into label values:
    Go's strconv.FormatUint(n, 10) and strconv.Itoa(i). */
module Strconv {

  predicate IsDigit(c: char) {
    '0' <= c <= '9'
  }

  function DigitChar(d: nat): (c: char)
    requires d < 10
    ensures IsDigit(c) && (c as int) - ('0' as int) == d
  {
    ['0', '1', '2', '3', '4', '5', '6', '7', '8', '9'][d]
  }

  /** The number a string of decimal digits denotes, read most significant digit first. */
  function DigitsValue(s: string): nat
    requires forall i :: 0 <= i < |s| ==> IsDigit(s[i])
    decreases |s|
  {
    if s == [] then 0
    else
      assert IsDigit(s[|s| - 1]);
      DigitsValue(s[..|s| - 1]) * 10 + ((s[|s| - 1] as int) - ('0' as int))
  }

  /** strconv.FormatUint(n, 10): digits only, never empty, no leading zero. */
  function FormatUint(n: nat): (s: string)
    ensures |s| >= 1 && forall i :: 0 <= i < |s| ==> IsDigit(s[i])
    ensures |s| > 1 ==> s[0] != '0'
    decreases n
  {
    if n < 10 then [DigitChar(n)] else FormatUint(n / 10) + [DigitChar(n % 10)]
  }

  /** strconv.Itoa(i): a minus sign in front of the magnitude for negative values. */
  function Itoa(i: int): (s: string)
    ensures |s| >= 1
    ensures i >= 0 ==> s == FormatUint(i)
    ensures i < 0 ==> s == "-" + FormatUint(-i)
  {
    if i < 0 then "-" + FormatUint(-i) else FormatUint(i)
  }

  /** Reading the rendering back gives the number: FormatUint loses nothing. */
  lemma {:induction false} FormatUintRoundTrip(n: nat)
    ensures DigitsValue(FormatUint(n)) == n
    decreases n
  {
    var s := FormatUint(n);
    if n >= 10 {
      FormatUintRoundTrip(n / 10);
      assert s[..|s| - 1] == FormatUint(n / 10);
    }
  }

  /** Distinct numbers get distinct renderings. */
  lemma FormatUintInjective(m: nat, n: nat)
    requires FormatUint(m) == FormatUint(n)
    ensures m == n
  {
    FormatUintRoundTrip(m);
    FormatUintRoundTrip(n);
  }
}
