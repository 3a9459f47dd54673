/** Decimal digits of natural numbers, and where a run of digits ends. */
module Decimal {

  function Digit(d: nat): char
    requires d < 10
  {
    "0123456789"[d]
  }

  predicate IsDigit(c: char) {
    '0' <= c <= '9'
  }

  ghost predicate AllDigits(s: string) {
    forall i :: 0 <= i < |s| ==> IsDigit(s[i])
  }

  function NatText(n: nat): (s: string)
    ensures |s| > 0 && AllDigits(s)
  {
    if n < 10 then [Digit(n)] else NatText(n / 10) + [Digit(n % 10)]
  }

  function NatValue(s: string): nat
    requires AllDigits(s)
  {
    if s == "" then 0 else 10 * NatValue(s[..|s| - 1]) + (s[|s| - 1] as int - '0' as int)
  }

  lemma {:induction false} NatTextRoundTrip(n: nat)
    ensures NatValue(NatText(n)) == n
  {
    if n >= 10 {
      NatTextRoundTrip(n / 10);
      var s := NatText(n);
      assert s[..|s| - 1] == NatText(n / 10);
    } else {
      assert NatText(n)[..0] == "";
    }
  }

  /** A longer number never has fewer digits. */
  lemma {:induction false} NatTextGrows(m: nat, n: nat)
    requires m <= n
    ensures |NatText(m)| <= |NatText(n)|
  {
    if m >= 10 {
      NatTextGrows(m / 10, n / 10);
    }
  }

  ghost predicate NoDigitFirst(s: string) {
    s == "" || !IsDigit(s[0])
  }

  lemma DigitRunIsMaximal(d: string, x: string, e: string, y: string)
    requires AllDigits(e) && NoDigitFirst(x)
    requires d + x == e + y
    ensures |e| <= |d|
  {
    var s := d + x;
    assert forall i :: 0 <= i < |e| ==> s[i] == e[i];
    assert x != "" ==> s[|d|] == x[0];
  }

  lemma DigitRunsSplitUniquely(d: string, x: string, e: string, y: string)
    requires AllDigits(d) && AllDigits(e) && NoDigitFirst(x) && NoDigitFirst(y)
    requires d + x == e + y
    ensures d == e && x == y
  {
    DigitRunIsMaximal(d, x, e, y);
    DigitRunIsMaximal(e, y, d, x);
    assert d == (d + x)[..|d|] == (e + y)[..|e|] == e;
    assert x == (d + x)[|d|..] == (e + y)[|e|..] == y;
  }

  function Magnitude(n: int): nat {
    if n < 0 then -n else n
  }

  function Signed(negative: bool, digits: string): string {
    if negative then "-" + digits else digits
  }
}
