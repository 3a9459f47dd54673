/** Finite numbers as ECMAScript prints them: Number::toString, section 6.1.6.1.20 of ECMA-262.

    A number is known by the shortest digits that identify it, without zeros at either end, and by
    where the decimal point lies in them. */
module Numerals {
  import opened Decimal

  /** `digits`, read as a fraction behind the point, times ten to the power of `point`. */
  datatype Figure = Zero | Nonzero(negative: bool, digits: string, point: int)

  ghost predicate IsShortest(d: string) {
    d != "" && AllDigits(d) && d[0] != '0' && d[|d| - 1] != '0'
  }

  type Numeral = f: Figure | f.Nonzero? ==> IsShortest(f.digits) witness Zero

  function Zeros(k: nat): (s: string)
    ensures |s| == k && AllDigits(s) && forall i :: 0 <= i < k ==> s[i] == '0'
  {
    seq(k, i => '0')
  }

  /** The digits without a sign. */
  function Unsigned(d: string, n: int): string
    requires d != ""
  {
    if |d| <= n <= 21 then d + Zeros(n - |d|)
    else if 0 < n <= 21 then d[..n] + "." + d[n..]
    else if -6 < n <= 0 then "0." + Zeros(-n) + d
    else Mantissa(d) + "e" + Exponent(n - 1)
  }

  function Mantissa(d: string): string
    requires d != ""
  {
    if |d| == 1 then d else d[..1] + "." + d[1..]
  }

  function Exponent(n: int): string {
    (if n < 0 then "-" else "+") + NatText(Magnitude(n))
  }

  function NumeralText(f: Numeral): string {
    if f.Zero? then "0" else Signed(f.negative, Unsigned(f.digits, f.point))
  }

  // ----- reading a number back -----

  /** Where a character is first, or the length of the text. */
  function Position(t: string, c: char): (p: nat)
    ensures p <= |t| && (p < |t| ==> t[p] == c) && forall i :: 0 <= i < p ==> t[i] != c
  {
    if t == "" || t[0] == c then 0 else 1 + Position(t[1..], c)
  }

  function LeadingZeros(t: string): (k: nat)
    ensures k <= |t| && (k < |t| ==> t[k] != '0') && forall i :: 0 <= i < k ==> t[i] == '0'
  {
    if t == "" || t[0] != '0' then 0 else 1 + LeadingZeros(t[1..])
  }

  /** How much of a text is left without the zeros at its end. */
  function Trimmed(t: string): (k: nat)
    ensures k <= |t| && (k > 0 ==> t[k - 1] != '0') && forall i :: k <= i < |t| ==> t[i] == '0'
  {
    if t == "" || t[|t| - 1] != '0' then |t| else Trimmed(t[..|t| - 1])
  }

  ghost function ReadMantissa(m: string): string {
    if |m| <= 1 then m else m[..1] + m[2..]
  }

  ghost function ReadExponent(x: string): int {
    if x == "" || !AllDigits(x[1..]) then 0
    else if x[0] == '-' then 0 - NatValue(x[1..]) else NatValue(x[1..])
  }

  ghost function ReadUnsigned(t: string): (string, int) {
    var e, p := Position(t, 'e'), Position(t, '.');
    if e < |t| then (ReadMantissa(t[..e]), ReadExponent(t[e + 1..]) + 1)
    else if p == |t| then (t[..Trimmed(t)], |t|)
    else if t[0] == '0' && |t| >= 2 then (t[2..][LeadingZeros(t[2..])..], 0 - LeadingZeros(t[2..]))
    else (t[..p] + t[p + 1..], p)
  }

  lemma FoundAt(t: string, c: char, i: nat)
    requires i < |t| && t[i] == c && forall k :: 0 <= k < i ==> t[k] != c
    ensures Position(t, c) == i
  {
  }

  lemma FoundNowhere(t: string, c: char)
    requires forall k :: 0 <= k < |t| ==> t[k] != c
    ensures Position(t, c) == |t|
  {
  }

  lemma DigitsHaveNoMark(d: string)
    requires AllDigits(d)
    ensures Position(d, 'e') == Position(d, '.') == |d|
  {
    FoundNowhere(d, 'e');
    FoundNowhere(d, '.');
  }

  /** An integer, with zeros behind the digits. */
  lemma ReadsInteger(d: string, n: nat)
    requires IsShortest(d) && |d| <= n
    ensures ReadUnsigned(d + Zeros(n - |d|)) == (d, n)
  {
    var t := d + Zeros(n - |d|);
    DigitsHaveNoMark(t);
    var k := Trimmed(t);
    assert t[|d| - 1] == d[|d| - 1];
    assert t[..|d|] == d;
  }

  /** A number with a point among its digits. */
  lemma ReadsPointInside(d: string, n: nat)
    requires IsShortest(d) && 0 < n < |d|
    ensures ReadUnsigned(d[..n] + "." + d[n..]) == (d, n)
  {
    var t := d[..n] + "." + d[n..];
    assert forall i :: 0 <= i < |t| ==> t[i] == if i < n then d[i] else if i == n then '.' else d[i - 1];
    FoundNowhere(t, 'e');
    FoundAt(t, '.', n);
    assert t[..n] == d[..n] && t[n + 1..] == d[n..];
    assert d[..n] + d[n..] == d;
  }

  /** A small number, with zeros between the point and the digits. */
  lemma ReadsPointBefore(d: string, k: nat)
    requires IsShortest(d)
    ensures ReadUnsigned("0." + Zeros(k) + d) == (d, 0 - k)
  {
    var rest := Zeros(k) + d;
    var t := "0." + Zeros(k) + d;
    assert t == "0." + rest && t[2..] == rest && t[1] == '.';
    assert forall i :: 2 <= i < |t| ==> t[i] == rest[i - 2];
    FoundNowhere(t, 'e');
    FoundAt(t, '.', 1);
    assert rest[k] == d[0] && rest[k..] == d;
  }

  lemma ReadsMantissa(d: string)
    requires IsShortest(d)
    ensures ReadMantissa(Mantissa(d)) == d
    ensures forall i :: 0 <= i < |Mantissa(d)| ==> Mantissa(d)[i] != 'e'
  {
    if |d| > 1 {
      var m := d[..1] + "." + d[1..];
      assert m[..1] == d[..1] && m[2..] == d[1..];
      assert d[..1] + d[1..] == d;
    }
  }

  lemma ReadsExponent(n: int)
    ensures ReadExponent(Exponent(n)) == n
  {
    var x := Exponent(n);
    assert x[1..] == NatText(Magnitude(n));
    NatTextRoundTrip(Magnitude(n));
  }

  lemma ReadsScientific(d: string, n: int)
    requires IsShortest(d)
    ensures ReadUnsigned(Mantissa(d) + "e" + Exponent(n - 1)) == (d, n)
  {
    hide ReadMantissa, ReadExponent, Mantissa, Exponent;
    var t, k := Mantissa(d) + "e" + Exponent(n - 1), |Mantissa(d)|;
    ReadsMantissa(d);
    ReadsExponent(n - 1);
    FoundAt(t, 'e', k);
    assert t[..k] == Mantissa(d) && t[k + 1..] == Exponent(n - 1);
  }

  /** Digits and the place of the point can be read back from any of the five forms. */
  lemma ReadsBack(d: string, n: int)
    requires IsShortest(d)
    ensures ReadUnsigned(Unsigned(d, n)) == (d, n)
  {
    hide ReadUnsigned, Zeros, Mantissa, Exponent;
    if |d| <= n <= 21 {
      ReadsInteger(d, n);
    } else if 0 < n <= 21 {
      ReadsPointInside(d, n);
    } else if -6 < n <= 0 {
      ReadsPointBefore(d, -n);
    } else {
      ReadsScientific(d, n);
    }
  }

  // ----- where a number ends -----

  predicate IsNumeralChar(c: char) {
    IsDigit(c) || c == '.' || c == 'e' || c == '+' || c == '-'
  }

  ghost predicate AllNumeral(s: string) {
    forall i :: 0 <= i < |s| ==> IsNumeralChar(s[i])
  }

  /** What may come after a number. */
  ghost predicate NoNumeralFirst(s: string) {
    s == "" || !IsNumeralChar(s[0])
  }

  lemma NumeralJoin(a: string, b: string)
    requires AllNumeral(a) && AllNumeral(b)
    ensures AllNumeral(a + b)
  {
  }

  lemma DigitsAreNumeral(d: string, i: nat, j: nat)
    requires AllDigits(d) && i <= j <= |d|
    ensures AllNumeral(d[i..j])
  {
  }

  lemma MarksAreNumeral()
    ensures AllNumeral("0.") && AllNumeral(".") && AllNumeral("e") && AllNumeral("+") && AllNumeral("-")
  {
  }

  lemma MantissaIsNumeral(d: string)
    requires d != "" && AllDigits(d)
    ensures AllNumeral(Mantissa(d)) && Mantissa(d) != "" && Mantissa(d)[0] == d[0]
  {
    hide AllNumeral, AllDigits;
    MarksAreNumeral();
    WholeText(d);
    DigitsAreNumeral(d, 0, |d|);
    DigitsAreNumeral(d, 0, 1);
    DigitsAreNumeral(d, 1, |d|);
    NumeralJoin(d[..1], ".");
    NumeralJoin(d[..1] + ".", d[1..]);
  }

  lemma WholeText(d: string)
    ensures d[0..|d|] == d
  {
  }

  lemma ExponentIsNumeral(n: int)
    ensures AllNumeral(Exponent(n))
  {
    hide AllNumeral, AllDigits, NatText;
    MarksAreNumeral();
    var d := NatText(Magnitude(n));
    WholeText(d);
    DigitsAreNumeral(d, 0, |d|);
    NumeralJoin("+", d);
    NumeralJoin("-", d);
  }

  lemma UnsignedIsNumeral(d: string, n: int)
    requires IsShortest(d)
    ensures AllNumeral(Unsigned(d, n)) && Unsigned(d, n) != "" && IsDigit(Unsigned(d, n)[0])
  {
    hide AllNumeral, Mantissa, Exponent, Zeros;
    MarksAreNumeral();
    WholeText(d);
    DigitsAreNumeral(d, 0, |d|);
    if |d| <= n <= 21 {
      ZerosAreNumeral(n - |d|);
      NumeralJoin(d, Zeros(n - |d|));
    } else if 0 < n <= 21 {
      DigitsAreNumeral(d, 0, n);
      DigitsAreNumeral(d, n, |d|);
      NumeralJoin(d[..n], ".");
      NumeralJoin(d[..n] + ".", d[n..]);
    } else if -6 < n <= 0 {
      ZerosAreNumeral(-n);
      NumeralJoin("0.", Zeros(-n));
      NumeralJoin("0." + Zeros(-n), d);
    } else {
      MantissaIsNumeral(d);
      ExponentIsNumeral(n - 1);
      NumeralJoin(Mantissa(d), "e");
      NumeralJoin(Mantissa(d) + "e", Exponent(n - 1));
    }
  }

  lemma ZerosAreNumeral(k: nat)
    ensures AllNumeral(Zeros(k))
  {
  }

  lemma TextIsNumeral(f: Numeral)
    ensures AllNumeral(NumeralText(f)) && NumeralText(f) != ""
    ensures NumeralText(f)[0] == '-' || IsDigit(NumeralText(f)[0])
  {
    hide Unsigned, IsShortest;
    if f.Nonzero? {
      UnsignedIsNumeral(f.digits, f.point);
    }
  }

  lemma RunIsMaximal(s: string, x: string, t: string, y: string)
    requires AllNumeral(t) && NoNumeralFirst(x) && s + x == t + y
    ensures |t| <= |s|
  {
    var all := s + x;
    assert forall i :: 0 <= i < |t| ==> all[i] == t[i];
    assert x != "" ==> all[|s|] == x[0];
  }

  lemma RunsSplitUniquely(s: string, x: string, t: string, y: string)
    requires AllNumeral(s) && AllNumeral(t) && NoNumeralFirst(x) && NoNumeralFirst(y) && s + x == t + y
    ensures s == t && x == y
  {
    RunIsMaximal(s, x, t, y);
    RunIsMaximal(t, y, s, x);
    assert s == (s + x)[..|s|] == (t + y)[..|t|] == t;
    assert x == (s + x)[|s|..] == (t + y)[|t|..] == y;
  }

  /** Different numbers have different texts. */
  lemma TextIdentifies(f: Numeral, g: Numeral)
    requires NumeralText(f) == NumeralText(g)
    ensures f == g
  {
    hide Unsigned, ReadUnsigned, Position;
    if f.Nonzero? {
      ReadsBack(f.digits, f.point);
      UnsignedIsNumeral(f.digits, f.point);
      NotZero(f.digits, f.point);
    }
    if g.Nonzero? {
      ReadsBack(g.digits, g.point);
      UnsignedIsNumeral(g.digits, g.point);
      NotZero(g.digits, g.point);
    }
    if f.Nonzero? && g.Nonzero? {
      assert f.negative <==> NumeralText(f)[0] == '-';
      assert g.negative <==> NumeralText(g)[0] == '-';
      if f.negative {
        assert NumeralText(f)[1..] == Unsigned(f.digits, f.point);
        assert NumeralText(g)[1..] == Unsigned(g.digits, g.point);
      }
    }
  }

  lemma NotZero(d: string, n: int)
    requires IsShortest(d)
    ensures Unsigned(d, n) != "0"
  {
    ReadsBack(d, n);
    DigitsHaveNoMark("0");
    assert Trimmed("0") == 0;
    assert ReadUnsigned("0").0 == "";
  }

  lemma NumeralSplitsUniquely(f: Numeral, x: string, g: Numeral, y: string)
    requires NoNumeralFirst(x) && NoNumeralFirst(y) && NumeralText(f) + x == NumeralText(g) + y
    ensures f == g && x == y
  {
    hide NumeralText, AllNumeral, NoNumeralFirst;
    TextIsNumeral(f);
    TextIsNumeral(g);
    RunsSplitUniquely(NumeralText(f), x, NumeralText(g), y);
    TextIdentifies(f, g);
  }
}
