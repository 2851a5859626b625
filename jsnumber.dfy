/**
 * JavaScript's `Number(string)` conversion (ECMAScript, section 7.1.4.1.1 "StringToNumber"):
 * surrounding white space is ignored, an empty string is 0, a decimal literal may carry a sign,
 * a fraction and an exponent, "Infinity" is infinite, `0x`/`0o`/`0b` literals take no sign, and
 * anything else is NaN. Values are exact reals; IEEE-754 rounding is not modelled.
 */
module JsNumber {
  import opened Text
  import opened Wrappers

  datatype Number = NaN | Finite(value: real) | Infinity | NegInfinity

  /** `n > 0` in JavaScript (false for NaN). */
  predicate IsPositive(n: Number)
  {
    n.Infinity? || (n.Finite? && n.value > 0.0)
  }

  /** `!isNaN(n) && lo <= n && n <= hi` for finite bounds. */
  predicate InRange(n: Number, lo: real, hi: real)
  {
    n.Finite? && lo <= n.value <= hi
  }

  /** StrWhiteSpaceChar: white space and line terminators. */
  predicate IsWhiteSpace(c: char)
  {
    c == '\t' || c == '\n' || c == '\U{B}' || c == '\U{C}' || c == '\r' || c == ' '
    || c == '\U{A0}' || c == '\U{1680}' || ('\U{2000}' <= c <= '\U{200A}')
    || c == '\U{2028}' || c == '\U{2029}' || c == '\U{202F}' || c == '\U{205F}'
    || c == '\U{3000}' || c == '\U{FEFF}'
  }

  function TrimStart(s: string): (t: string)
    ensures |t| <= |s|
    ensures |t| > 0 ==> !IsWhiteSpace(t[0])
    ensures |s| > 0 && !IsWhiteSpace(s[0]) ==> t == s
  {
    if |s| > 0 && IsWhiteSpace(s[0]) then TrimStart(s[1..]) else s
  }

  function TrimEnd(s: string): (t: string)
    ensures |t| <= |s|
    ensures |s| > 0 && !IsWhiteSpace(s[|s| - 1]) ==> t == s
  {
    if |s| > 0 && IsWhiteSpace(s[|s| - 1]) then TrimEnd(s[..|s| - 1]) else s
  }

  predicate IsRadixDigit(c: char, radix: nat)
  {
    (IsDigit(c) && DigitValue(c) < radix)
    || (radix == 16 && (('a' <= c <= 'f') || ('A' <= c <= 'F')))
  }

  function RadixDigitValue(c: char, radix: nat): nat
    requires IsRadixDigit(c, radix)
  {
    if IsDigit(c) then DigitValue(c)
    else if 'a' <= c <= 'f' then 10 + (c as int - 'a' as int)
    else 10 + (c as int - 'A' as int)
  }

  function RadixValue(s: string, radix: nat): nat
    requires forall i :: 0 <= i < |s| ==> IsRadixDigit(s[i], radix)
  {
    if s == [] then 0
    else
      var init := s[..|s| - 1];
      assert forall i :: 0 <= i < |init| ==> init[i] == s[i];
      var high: nat := RadixValue(init, radix);
      var low: nat := RadixDigitValue(s[|s| - 1], radix);
      radix * high + low
  }


  /** NonDecimalIntegerLiteral digits after the `0x`, `0o` or `0b` prefix. */
  function RadixLiteral(s: string, radix: nat): Number
  {
    if |s| > 0 && forall i :: 0 <= i < |s| ==> IsRadixDigit(s[i], radix)
    then Finite(RadixValue(s, radix) as real)
    else NaN
  }

  /** The exponent after `e` or `E`: an optional sign and at least one digit. */
  function Exponent(x: string): Option<int>
  {
    if |x| > 0 && (x[0] == '+' || x[0] == '-') then
      (if IsDigits(x[1..]) then Some(if x[0] == '-' then -(Value(x[1..]) as int) else Value(x[1..]) as int) else None)
    else if IsDigits(x) then Some(Value(x))
    else None
  }

  /** `v` times ten to the power `e`, one factor of ten at a time. */
  function Scale(v: real, e: int): real
    decreases if e >= 0 then e else -e
  {
    if e == 0 then v else if e > 0 then 10.0 * Scale(v, e - 1) else Scale(v, e + 1) / 10.0
  }

  /** The first index of `e` or `E`, or `|s|`. */
  function ExponentMark(s: string): (k: nat)
    ensures k <= |s|
  {
    var lower := IndexOf(s, 'e');
    var upper := IndexOf(s, 'E');
    if lower <= upper then lower else upper
  }

  /** The digits after a point, read as a fraction of one: 0.d1d2... is (d1 + 0.d2...) / 10. */
  function FractionValue(f: string): real
    requires AllDigits(f)
    decreases |f|
  {
    if f == [] then 0.0 else (DigitValue(f[0]) as real + FractionValue(f[1..])) / 10.0
  }

  /** A fraction is never negative, and is positive exactly when one of its digits is not '0'. */
  lemma {:induction false} FractionSign(f: string)
    requires AllDigits(f)
    ensures FractionValue(f) >= 0.0
    ensures FractionValue(f) > 0.0 <==> HasNonZeroDigit(f)
  {
    if f != [] {
      FractionSign(f[1..]);
      NonZeroCons(f);
    }
  }

  lemma NonZeroCons(s: string)
    requires |s| > 0
    ensures HasNonZeroDigit(s) <==> (IsDigit(s[0]) && s[0] != '0') || HasNonZeroDigit(s[1..])
  {
    var tail := s[1..];
    if HasNonZeroDigit(tail) {
      var i :| 0 <= i < |tail| && IsDigit(tail[i]) && tail[i] != '0';
      assert s[i + 1] == tail[i];
    }
    if HasNonZeroDigit(s) {
      var i :| 0 <= i < |s| && IsDigit(s[i]) && s[i] != '0';
      if i > 0 { assert tail[i - 1] == s[i]; }
    }
  }

  /** The digits before the exponent: a whole part, optionally a point and a fraction, not both empty. */
  function Mantissa(m: string): Option<real>
  {
    var d := IndexOf(m, '.');
    var whole := m[..d];
    var fraction := if d < |m| then m[d + 1..] else "";
    if AllDigits(whole) && AllDigits(fraction) && |whole| + |fraction| > 0 then
      Some(Value(whole) as real + FractionValue(fraction))
    else None
  }

  /** StrUnsignedDecimalLiteral: `Infinity`, or a mantissa with an optional exponent. */
  function Unsigned(t: string): Number
  {
    if t == "Infinity" then Infinity
    else
      var e := ExponentMark(t);
      var mantissa := Mantissa(t[..e]);
      var exponent := if e < |t| then Exponent(t[e + 1..]) else Some(0);
      if mantissa.Some? && exponent.Some? then Finite(Scale(mantissa.value, exponent.value))
      else NaN
  }

  function Negate(n: Number): Number
  {
    match n
    case NaN => NaN
    case Finite(v) => Finite(-v)
    case Infinity => NegInfinity
    case NegInfinity => Infinity
  }

  /** `Number(s)`. */
  function ToNumber(s: string): Number
  {
    var t := TrimEnd(TrimStart(s));
    if t == "" then Finite(0.0)
    else if |t| >= 2 && t[0] == '0' && (t[1] == 'x' || t[1] == 'X') then RadixLiteral(t[2..], 16)
    else if |t| >= 2 && t[0] == '0' && (t[1] == 'o' || t[1] == 'O') then RadixLiteral(t[2..], 8)
    else if |t| >= 2 && t[0] == '0' && (t[1] == 'b' || t[1] == 'B') then RadixLiteral(t[2..], 2)
    else if t[0] == '+' then Unsigned(t[1..])
    else if t[0] == '-' then Negate(Unsigned(t[1..]))
    else Unsigned(t)
  }

  /** A string that starts and ends with a digit and has no radix prefix is an unsigned decimal literal. */
  lemma PlainToNumber(s: string)
    requires |s| > 0 && IsDigit(s[0]) && IsDigit(s[|s| - 1])
    requires |s| >= 2 ==> IsDigit(s[1]) || s[1] == '.'
    ensures ToNumber(s) == Unsigned(s)
  {
    Untrimmed(s);
  }

  /** A string that starts and ends with a digit has no white space to trim. */
  lemma Untrimmed(s: string)
    requires |s| > 0 && IsDigit(s[0]) && IsDigit(s[|s| - 1])
    ensures TrimEnd(TrimStart(s)) == s
  {
    assert TrimStart(s) == s;
  }

  /** An unsigned literal without an exponent letter is its mantissa's value. */
  lemma NoExponent(t: string)
    requires t != "Infinity" && ExponentMark(t) == |t|
    ensures Mantissa(t).Some? ==> Unsigned(t) == Finite(Mantissa(t).value)
    ensures Mantissa(t).None? ==> Unsigned(t) == NaN
  {
    assert t[..|t|] == t;
  }

  /** An unsigned literal made of digits alone is its digits' value. */
  lemma WholeUnsigned(s: string)
    requires IsDigits(s)
    ensures Unsigned(s) == Finite(Value(s) as real)
  {
    assert s != "Infinity" by { assert "Infinity"[0] == 'I'; assert IsDigit(s[0]); }
    DigitsHaveNo(s, 'e');
    DigitsHaveNo(s, 'E');
    DigitsHaveNo(s, '.');
    NoExponent(s);
    assert s[..|s|] == s;
    assert Mantissa(s) == Some(Value(s) as real + FractionValue(""));
  }

  /** A plain digit string converts to its decimal value. */
  lemma DigitsToNumber(s: string)
    requires IsDigits(s)
    ensures ToNumber(s) == Finite(Value(s) as real)
  {
    PlainToNumber(s);
    WholeUnsigned(s);
  }

  /** The exact value of a string matching `^\d+(\.\d+)?$`. */
  function DecimalValue(s: string): real
    requires IsDecimal(s)
  {
    var k := IndexOf(s, '.');
    var fraction := if k == |s| then "" else s[k + 1..];
    Value(s[..k]) as real + FractionValue(fraction)
  }

  /** A string matching `^\d+(\.\d+)?$` converts to its decimal value, positive exactly when a digit is not '0'. */
  lemma DecimalToNumber(s: string)
    requires IsDecimal(s)
    ensures ToNumber(s) == Finite(DecimalValue(s))
    ensures DecimalValue(s) > 0.0 <==> HasNonZeroDigit(s)
  {
    DecimalConverts(s);
    DecimalPositive(s);
  }

  lemma DecimalConverts(s: string)
    requires IsDecimal(s)
    ensures ToNumber(s) == Finite(DecimalValue(s))
  {
    DecimalEnds(s);
    PlainToNumber(s);
    var k := IndexOf(s, '.');
    var v := DecimalUnsigned(s, k, s[..k], if k == |s| then "" else s[k + 1..]);
  }

  lemma DecimalPositive(s: string)
    requires IsDecimal(s)
    ensures DecimalValue(s) > 0.0 <==> HasNonZeroDigit(s)
  {
    var k := IndexOf(s, '.');
    var whole := s[..k];
    var fraction := if k == |s| then "" else s[k + 1..];
    SplitNonZero(s, k, whole, fraction);
    PositiveSum(whole, fraction);
  }

  /** A decimal string starts and ends with a digit, and its second character is a digit or the point. */
  lemma DecimalEnds(s: string)
    requires IsDecimal(s)
    ensures |s| > 0 && IsDigit(s[0]) && IsDigit(s[|s| - 1])
    ensures |s| >= 2 ==> IsDigit(s[1]) || s[1] == '.'
  {
    var k := IndexOf(s, '.');
    var whole := s[..k];
    assert s[0] == whole[0];
    if k == |s| {
      assert s[|s| - 1] == whole[|s| - 1];
    } else {
      var fraction := s[k + 1..];
      assert s[|s| - 1] == fraction[|fraction| - 1];
    }
    if |s| >= 2 && k >= 2 {
      assert s[1] == whole[1];
    }
  }

  /** A whole part plus a fraction is positive exactly when one of their digits is not '0'. */
  lemma PositiveSum(whole: string, fraction: string)
    requires AllDigits(whole) && AllDigits(fraction)
    ensures Value(whole) as real + FractionValue(fraction) > 0.0
        <==> HasNonZeroDigit(whole) || HasNonZeroDigit(fraction)
  {
    ValuePositive(whole);
    FractionSign(fraction);
  }

  /** The value of an exponent-free decimal literal. */
  lemma DecimalUnsigned(s: string, k: nat, whole: string, fraction: string) returns (v: real)
    requires IsDecimal(s) && k == IndexOf(s, '.') && whole == s[..k]
    requires fraction == if k == |s| then "" else s[k + 1..]
    ensures AllDigits(whole) && AllDigits(fraction)
    ensures v == Value(whole) as real + FractionValue(fraction)
    ensures v == DecimalValue(s) && Unsigned(s) == Finite(v)
  {
    assert s != "Infinity" by { assert "Infinity"[0] == 'I'; assert s[0] == whole[0]; }
    ExponentFree(s, k);
    NoExponent(s);
    v := Value(whole) as real + FractionValue(fraction);
    assert Mantissa(s) == Some(v);
  }

  /** A decimal string has no exponent letter. */
  lemma ExponentFree(s: string, k: nat)
    requires IsDecimal(s) && k == IndexOf(s, '.')
    ensures IndexOf(s, 'e') == |s| && IndexOf(s, 'E') == |s|
  {
    forall i | 0 <= i < |s| ensures IsDigit(s[i]) || s[i] == '.' {
      if i < k {
        assert s[i] == s[..k][i];
      } else if i > k {
        assert s[i] == s[k + 1..][i - k - 1];
      }
    }
    Absent(s, 'e');
    Absent(s, 'E');
  }

  /** The non-zero digits of a decimal string are those of its whole and fractional parts. */
  lemma SplitNonZero(s: string, k: nat, whole: string, fraction: string)
    requires k <= |s| && whole == s[..k]
    requires k == |s| ==> fraction == ""
    requires k < |s| ==> s[k] == '.' && fraction == s[k + 1..]
    ensures HasNonZeroDigit(s) <==> HasNonZeroDigit(whole) || HasNonZeroDigit(fraction)
  {
    if HasNonZeroDigit(s) {
      var i :| 0 <= i < |s| && IsDigit(s[i]) && s[i] != '0';
      if i < k { assert whole[i] == s[i]; }
      else { assert i > k; assert fraction[i - k - 1] == s[i]; }
    }
    if HasNonZeroDigit(whole) {
      var i :| 0 <= i < |whole| && IsDigit(whole[i]) && whole[i] != '0';
      assert s[i] == whole[i];
    }
    if HasNonZeroDigit(fraction) {
      var i :| 0 <= i < |fraction| && IsDigit(fraction[i]) && fraction[i] != '0';
      assert s[k + 1 + i] == fraction[i];
    }
  }
}
