/** Decimal rendering of a natural number, as an f-string renders an `int`:
    the canonical digit string, without sign and without leading zeros. */
module Decimal {

  predicate IsDigit(c: char)
  {
    '0' <= c <= '9'
  }

  predicate AllDigits(s: string)
  {
    forall i :: 0 <= i < |s| ==> IsDigit(s[i])
  }

  /** A non-empty digit string whose first digit is zero only if it is "0". */
  predicate IsCanonical(s: string)
  {
    |s| > 0 && AllDigits(s) && (s[0] == '0' ==> |s| == 1)
  }

  function DigitValue(c: char): (d: nat)
    requires IsDigit(c)
    ensures d < 10
  {
    c as int - '0' as int
  }

  function DigitChar(d: nat): (c: char)
    requires d < 10
    ensures IsDigit(c) && DigitValue(c) == d
  {
    ('0' as int + d) as char
  }

  /** The value of a digit string, most significant digit first. */
  function ValueOf(s: string): nat
    requires AllDigits(s)
  {
    if s == [] then 0 else 10 * ValueOf(s[..|s| - 1]) + DigitValue(s[|s| - 1])
  }

  /** The decimal text of `n`. */
  function Render(n: nat): (s: string)
    ensures IsCanonical(s)
    ensures s[0] == '0' <==> n == 0
  {
    if n < 10 then [DigitChar(n)] else Render(n / 10) + [DigitChar(n % 10)]
  }

  /** Reading back the rendered text gives the number again. */
  lemma {:induction false} ValueOfRender(n: nat)
    ensures ValueOf(Render(n)) == n
  {
    if n >= 10 {
      var p := Render(n / 10);
      ValueOfRender(n / 10);
      assert (p + [DigitChar(n % 10)])[..|p|] == p;
    }
  }

  /** Different numbers have different renderings. */
  lemma RenderInjective(m: nat, n: nat)
    ensures Render(m) == Render(n) ==> m == n
  {
    ValueOfRender(m);
    ValueOfRender(n);
  }

  /** A digit string of value zero holds only zeros. */
  lemma {:induction false} ZeroValueAllZeros(s: string)
    requires AllDigits(s) && |s| > 0 && ValueOf(s) == 0
    ensures s[0] == '0'
  {
    if |s| > 1 {
      var p := s[..|s| - 1];
      assert AllDigits(p) && p[0] == s[0];
      ZeroValueAllZeros(p);
    }
  }

  /** Every canonical digit string is the rendering of its value, so
      Render and ValueOf are inverse bijections between nat and IsCanonical. */
  lemma {:induction false} RenderValueOf(s: string)
    requires IsCanonical(s)
    ensures Render(ValueOf(s)) == s
  {
    if |s| > 1 {
      var p := s[..|s| - 1];
      assert IsCanonical(p) by {
        assert AllDigits(p) && p[0] == s[0];
      }
      if ValueOf(p) == 0 {
        ZeroValueAllZeros(p);
        assert false;
      }
      RenderValueOf(p);
      var n := ValueOf(s);
      assert n / 10 == ValueOf(p) && n % 10 == DigitValue(s[|s| - 1]);
      assert s == p + [s[|s| - 1]];
    }
  }
}
