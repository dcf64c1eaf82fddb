/** Decimal text for the numeric URL parameters of the course list
    (src/pages/CoursesPage.tsx): `Number(text)` restricted to plain decimal
    numerals, and `toString()` restricted to non-negative amounts with at most
    two decimals (whole cents), printed in plain digits as `toString()` does
    below 10^21. */
module Numerals {
  import opened Wrappers
  import opened Text

  function DigitChar(d: nat): (c: char)
    requires d < 10
    ensures IsDigit(c) && c != '.'
  {
    ('0' as int + d) as char
  }

  function DigitValue(c: char): (d: nat)
    requires IsDigit(c)
    ensures d < 10 && DigitChar(d) == c
  {
    c as int - '0' as int
  }

  function Pow10(k: nat): (p: nat)
    ensures p >= 1
  {
    if k == 0 then 1 else 10 * Pow10(k - 1)
  }

  /** The value of a string of decimal digits, read left to right. */
  function DigitsValue(s: string): nat
    requires AllDigits(s)
  {
    if s == [] then 0 else DigitsValue(s[..|s| - 1]) * 10 + DigitValue(s[|s| - 1])
  }

  /** The shortest decimal text of `n`: digits only, no leading zero. */
  function NatText(n: nat): (s: string)
    ensures |s| > 0 && AllDigits(s)
    ensures |s| > 1 ==> s[0] != '0'
    decreases n
  {
    if n < 10 then [DigitChar(n)] else NatText(n / 10) + [DigitChar(n % 10)]
  }

  /** Reading back the text of a number gives the number. */
  lemma {:induction false} NatTextRoundTrip(n: nat)
    ensures DigitsValue(NatText(n)) == n
    decreases n
  {
    if n >= 10 {
      NatTextRoundTrip(n / 10);
      var s := NatText(n);
      assert s[..|s| - 1] == NatText(n / 10);
    }
  }

  /** The index of the first `.` of `s`, or `|s|` when there is none. */
  function PointIndex(s: string): (k: nat)
    ensures k <= |s|
    ensures k < |s| ==> s[k] == '.'
    ensures forall i :: 0 <= i < k ==> s[i] != '.'
  {
    if s == [] then 0
    else if s[0] == '.' then 0
    else 1 + PointIndex(s[1..])
  }

  /** `Number(s)` on a decimal numeral: digits, optionally a point and more
      digits, with at least one digit in all. Any other text gives `None`. */
  function ParseNumeral(s: string): (r: Option<real>)
    ensures s != "" && AllDigits(s) ==> r == Some(DigitsValue(s) as real)
    ensures r.Some? ==> r.value >= 0.0
  {
    var k := PointIndex(s);
    if k == |s| then
      if s != "" && AllDigits(s) then Some(DigitsValue(s) as real) else None
    else
      var whole, frac := s[..k], s[k + 1..];
      if (whole != "" || frac != "") && AllDigits(whole) && AllDigits(frac)
      then Some(PointedValue(whole, frac))
      else None
  }

  /** The value of the numeral `whole.frac`. */
  function PointedValue(whole: string, frac: string): real
    requires AllDigits(whole) && AllDigits(frac)
  {
    DigitsValue(whole) as real + DigitsValue(frac) as real / Pow10(|frac|) as real
  }

  /** An amount that `toString()` writes with at most two decimals. */
  predicate IsCents(r: real) {
    r >= 0.0 && (r * 100.0).Floor as real == r * 100.0
  }

  /** `toString()` of `c / 100`: the whole part, then a point and one or two
      decimals only when the amount has a fraction, without trailing zeros. */
  function CentsText(c: nat): (s: string)
    ensures |s| > 0
  {
    var whole, frac := c / 100, c % 100;
    if frac == 0 then NatText(whole)
    else if frac % 10 == 0 then NatText(whole) + "." + [DigitChar(frac / 10)]
    else NatText(whole) + "." + [DigitChar(frac / 10), DigitChar(frac % 10)]
  }

  /** `r.toString()` for an amount in whole cents. */
  function AmountText(r: real): (s: string)
    requires IsCents(r)
    ensures |s| > 0
  {
    CentsText((r * 100.0).Floor as nat)
  }

  /** The fraction part is never written with a trailing zero, and whole
      amounts are written without a point. */
  lemma CentsTextShape(c: nat)
    ensures c % 100 == 0 ==> CentsText(c) == NatText(c / 100)
    ensures c % 100 != 0 ==> CentsText(c)[|CentsText(c)| - 1] != '0'
  {
  }

  lemma PointIndexAfterDigits(w: string, rest: string)
    requires AllDigits(w) && rest != [] && rest[0] == '.'
    ensures PointIndex(w + rest) == |w|
  {
    var s := w + rest;
    assert s[|w|] == '.';
    assert forall i :: 0 <= i < |w| ==> s[i] == w[i];
  }

  /** A numeral with a point is read as its whole part plus its fraction. */
  lemma ParsePointed(w: string, f: string)
    requires AllDigits(w) && AllDigits(f) && f != ""
    ensures ParseNumeral(w + "." + f) == Some(PointedValue(w, f))
  {
    var s := w + "." + f;
    assert s == w + ("." + f);
    PointIndexAfterDigits(w, "." + f);
    assert s[..|w|] == w;
    assert s[|w| + 1..] == f;
    assert s[|w|] == '.';
  }

  /** Reading back the text of an amount in cents gives the amount. */
  lemma CentsTextRoundTrip(c: nat)
    ensures ParseNumeral(CentsText(c)) == Some(c as real / 100.0)
  {
    var whole, frac := c / 100, c % 100;
    var w := NatText(whole);
    NatTextRoundTrip(whole);
    if frac == 0 {
      assert c as real / 100.0 == whole as real;
    } else if frac % 10 == 0 {
      OneDecimal(w, whole, frac);
    } else {
      TwoDecimals(w, whole, frac);
    }
  }

  lemma OneDecimal(w: string, whole: nat, frac: nat)
    requires AllDigits(w) && DigitsValue(w) == whole
    requires 0 < frac < 100 && frac % 10 == 0
    ensures ParseNumeral(w + "." + [DigitChar(frac / 10)])
         == Some((100 * whole + frac) as real / 100.0)
  {
    var f := [DigitChar(frac / 10)];
    var d := frac / 10;
    ParsePointed(w, f);
    assert DigitsValue(f) == d by {
      assert f[..0] == [];
    }
    assert PointedValue(w, f) == whole as real + d as real / 10.0 by {
      assert Pow10(1) == 10;
    }
    Tenths(whole, d);
  }

  /** `w.d` is `(100 w + 10 d) / 100`. */
  lemma Tenths(whole: nat, d: nat)
    ensures whole as real + d as real / 10.0 == (100 * whole + 10 * d) as real / 100.0
  {
  }

  lemma TwoDecimals(w: string, whole: nat, frac: nat)
    requires AllDigits(w) && DigitsValue(w) == whole
    requires 0 < frac < 100
    ensures ParseNumeral(w + "." + [DigitChar(frac / 10), DigitChar(frac % 10)])
         == Some((100 * whole + frac) as real / 100.0)
  {
    var f := [DigitChar(frac / 10), DigitChar(frac % 10)];
    ParsePointed(w, f);
    assert DigitsValue(f) == frac by {
      assert f[..1][..0] == [];
      assert f[..1] == [DigitChar(frac / 10)];
      assert DigitsValue(f[..1]) == frac / 10;
    }
    assert PointedValue(w, f) == whole as real + frac as real / 100.0 by {
      assert Pow10(2) == 100;
    }
    Hundredths(whole, frac);
  }

  /** `w.f` with two decimals is `(100 w + f) / 100`. */
  lemma Hundredths(whole: nat, frac: nat)
    ensures whole as real + frac as real / 100.0 == (100 * whole + frac) as real / 100.0
  {
  }

  /** Reading back `toString()` of an amount in cents gives the amount. */
  lemma AmountTextRoundTrip(r: real)
    requires IsCents(r)
    ensures ParseNumeral(AmountText(r)) == Some(r)
  {
    var c := (r * 100.0).Floor as nat;
    CentsTextRoundTrip(c);
    assert c as real / 100.0 == r;
  }
}
