/**
 * `Number.prototype.toString()` for the numbers a decimal numeral `^\d+(\.\d+)?$` denotes: the
 * shortest numeral with the same value, so no leading zeros before the point and no trailing
 * zeros after it. Exponent notation (values from 1e21 up, or below 1e-6) is not modelled.
 */
module NumberText {
  import opened Text
  import opened JsNumber

  /** A leading zero does not change a digit string's value. */
  lemma {:induction false} LeadingZero(t: string)
    requires AllDigits(t)
    ensures AllDigits(['0'] + t) && Value(['0'] + t) == Value(t)
  {
    var z := ['0'] + t;
    assert AllDigits(z) by {
      forall i | 0 <= i < |z| ensures IsDigit(z[i]) { if i > 0 { assert z[i] == t[i - 1]; } }
    }
    if t != [] {
      var init := t[..|t| - 1];
      assert AllDigits(init) by {
        forall i | 0 <= i < |init| ensures IsDigit(init[i]) { assert init[i] == t[i]; }
      }
      LeadingZero(init);
      assert z[..|z| - 1] == ['0'] + init;
      assert z[|z| - 1] == t[|t| - 1];
    } else {
      assert z[..|z| - 1] == [];
    }
  }

  /** The whole part without leading zeros, keeping at least one digit. */
  function WholeText(w: string): (r: string)
    requires IsDigits(w)
    ensures IsDigits(r) && Value(r) == Value(w)
    ensures |r| > 1 ==> r[0] != '0'
  {
    if |w| > 1 && w[0] == '0' then
      assert w == ['0'] + w[1..];
      LeadingZero(w[1..]);
      WholeText(w[1..])
    else w
  }

  /** A trailing '0' does not change a fraction. */
  lemma {:induction false} TrailingZero(f: string)
    requires AllDigits(f)
    ensures AllDigits(f + "0") && FractionValue(f + "0") == FractionValue(f)
  {
    if f != [] {
      assert (f + "0")[1..] == f[1..] + "0";
      TrailingZero(f[1..]);
    }
  }

  /** The fraction without trailing zeros: the same value over its own power of ten. */
  function FractionText(f: string): (r: string)
    requires AllDigits(f)
    ensures AllDigits(r) && |r| <= |f|
    ensures r == [] || r[|r| - 1] != '0'
    ensures FractionValue(r) == FractionValue(f)
  {
    if |f| > 0 && f[|f| - 1] == '0' then
      var init := f[..|f| - 1];
      assert AllDigits(init) by {
        forall i | 0 <= i < |init| ensures IsDigit(init[i]) { assert init[i] == f[i]; }
      }
      assert f == init + "0";
      TrailingZero(init);
      FractionText(init)
    else f
  }

  /** `Number(s).toString()` for a decimal numeral `s`. */
  function DecimalText(s: string): (t: string)
    requires IsDecimal(s)
  {
    var k := IndexOf(s, '.');
    var fraction := if k == |s| then "" else FractionText(s[k + 1..]);
    WholeText(s[..k]) + (if fraction == "" then "" else "." + fraction)
  }

  /** No zero leads a whole part of several digits, and a fraction does not end in zero. */
  predicate Canonical(t: string)
  {
    var k := IndexOf(t, '.');
    (k > 1 ==> t[0] != '0') && (k < |t| ==> t[|t| - 1] != '0')
  }

  /** The point is found right after a run of digits. */
  lemma PointAfter(w: string, f: string)
    requires AllDigits(w)
    ensures IndexOf(w + "." + f, '.') == |w|
  {
    var t := w + "." + f;
    assert t[|w|] == '.';
    if |w| > 0 {
      assert t[1..] == w[1..] + "." + f;
      assert AllDigits(w[1..]) by {
        forall i | 0 <= i < |w[1..]| ensures IsDigit(w[1..][i]) { assert w[1..][i] == w[i + 1]; }
      }
      assert t[0] == w[0] && IsDigit(w[0]);
      PointAfter(w[1..], f);
    }
  }

  /** A digit string alone is a decimal numeral worth its value, with no point in it. */
  lemma WholeNumeral(w: string)
    requires IsDigits(w)
    ensures IndexOf(w, '.') == |w| && IsDecimal(w) && DecimalValue(w) == Value(w) as real
  {
    DigitsHaveNo(w, '.');
    assert w[..|w|] == w;
    assert IsDecimal(w);
    assert FractionValue("") == 0.0;
  }

  /** Digits, a point and digits make a decimal numeral worth the whole part plus the fraction. */
  lemma PointNumeral(w: string, f: string)
    requires IsDigits(w) && IsDigits(f)
    ensures IndexOf(w + "." + f, '.') == |w|
    ensures IsDecimal(w + "." + f)
    ensures DecimalValue(w + "." + f) == Value(w) as real + FractionValue(f)
  {
    var t := w + "." + f;
    PointAfter(w, f);
    var k := IndexOf(t, '.');
    assert t[..k] == w;
    assert t[k + 1..] == f;
    assert k < |t| && IsDigits(t[..k]) && IsDigits(t[k + 1..]);
    assert k != |t|;
    assert DecimalValue(t) == Value(t[..k]) as real + FractionValue(t[k + 1..]);
  }

  /**
   * The text is again a decimal numeral, denotes the same value, and is canonical: no superfluous
   * zero before or after the point.
   */
  lemma DecimalTextValue(s: string)
    requires IsDecimal(s)
    ensures IsDecimal(DecimalText(s)) && DecimalValue(DecimalText(s)) == DecimalValue(s)
    ensures Canonical(DecimalText(s))
  {
    var k := IndexOf(s, '.');
    var whole := s[..k];
    var raw := if k == |s| then "" else s[k + 1..];
    assert DecimalValue(s) == Value(whole) as real + FractionValue(raw);
    var w := WholeText(whole);
    var fraction := if k == |s| then "" else FractionText(raw);
    assert FractionValue(fraction) == FractionValue(raw);
    var t := DecimalText(s);
    if fraction == "" {
      assert t == w;
      WholeNumeral(w);
      assert FractionValue("") == 0.0;
      assert DecimalValue(t) == Value(whole) as real && FractionValue(raw) == 0.0;
    } else {
      assert t == w + "." + fraction;
      PointNumeral(w, fraction);
      assert t[0] == w[0] && t[|t| - 1] == fraction[|fraction| - 1];
      assert DecimalValue(t) == Value(whole) as real + FractionValue(raw);
    }
  }

  /** The text converts back to the number it was made from. */
  lemma DecimalTextRoundTrip(s: string)
    requires IsDecimal(s)
    ensures ToNumber(DecimalText(s)) == ToNumber(s)
  {
    DecimalTextValue(s);
    DecimalToNumber(s);
    DecimalToNumber(DecimalText(s));
  }
}
