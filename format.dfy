/** Decimal rendering of the clock and the focus timer: the page writes
    numbers with JavaScript's string concatenation and pads them to two digits. */
module Format {
  import opened Text

  function DigitChar(d: nat): (c: char)
    requires d < 10
    ensures IsAsciiDigit(c)
  {
    ('0' as int + d) as char
  }

  function DigitValue(c: char): (d: nat)
    requires IsAsciiDigit(c)
    ensures d < 10 && DigitChar(d) == c
  {
    c as int - '0' as int
  }

  predicate AllDigits(s: string) {
    forall i :: 0 <= i < |s| ==> IsAsciiDigit(s[i])
  }

  /** The value a string of decimal digits denotes (leading zeros allowed). */
  function DecimalValue(s: string): nat
    requires AllDigits(s)
  {
    if s == [] then 0 else DecimalValue(s[..|s| - 1]) * 10 + DigitValue(s[|s| - 1])
  }

  /** `'' + n` for a non-negative integer `n`: its shortest decimal form. */
  function NatToString(n: nat): (r: string)
    ensures AllDigits(r) && |r| >= 1
    ensures r[0] != '0' || n == 0
    ensures n < 10 <==> |r| == 1
    ensures 10 <= n < 100 <==> |r| == 2
  {
    if n < 10 then [DigitChar(n)] else NatToString(n / 10) + [DigitChar(n % 10)]
  }

  /** Reading back the decimal form of `n` yields `n`. */
  lemma {:induction false} NatToStringRoundTrip(n: nat)
    ensures DecimalValue(NatToString(n)) == n
  {
    var r := NatToString(n);
    if n >= 10 {
      NatToStringRoundTrip(n / 10);
      assert r[..|r| - 1] == NatToString(n / 10);
    }
  }

  /** A leading zero does not change the value of one digit. */
  lemma LeadingZero(d: string)
    requires |d| == 1 && AllDigits(d)
    ensures AllDigits("0" + d) && DecimalValue("0" + d) == DecimalValue(d)
  {
    var z := "0" + d;
    assert z[..1] == "0";
    assert d[..0] == [];
  }

  /** `pad2(n)`: a '0' in front of the numbers below ten. For the values the
      page passes (below 100) the result is two digits that read back as `n`. */
  function Pad2(n: nat): (r: string)
    ensures AllDigits(r)
    ensures n < 100 ==> |r| == 2 && DecimalValue(r) == n
    ensures n >= 10 ==> r == NatToString(n)
  {
    NatToStringRoundTrip(n);
    if n < 10 then
      LeadingZero(NatToString(n));
      "0" + NatToString(n)
    else NatToString(n)
  }

  /** `formatTimer(m, s)`: `MM:SS`, each field padded as `Pad2` pads it. */
  function FormatTimer(m: nat, s: nat): (r: string)
    ensures r == Pad2(m) + ":" + Pad2(s)
    ensures m < 100 && s < 100 ==>
      |r| == 5 && r[2] == ':' && AllDigits(r[..2]) && AllDigits(r[3..])
      && DecimalValue(r[..2]) == m && DecimalValue(r[3..]) == s
  {
    var r := (if m < 10 then "0" else "") + NatToString(m) + ":" + (if s < 10 then "0" else "") + NatToString(s);
    assert r == Pad2(m) + ":" + Pad2(s);
    assert m < 100 && s < 100 ==> r[..2] == Pad2(m) && r[3..] == Pad2(s);
    r
  }
}
