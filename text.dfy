/** Character classes and digit strings, as the source's regular expressions use them. */
module Text {

  /** `[0-9]`, which is also what `\d` matches in a JavaScript regular expression. */
  predicate IsDigit(c: char)
  {
    '0' <= c <= '9'
  }

  predicate AllDigits(s: string)
  {
    forall i :: 0 <= i < |s| ==> IsDigit(s[i])
  }

  /** The regular expressions `^[0-9]+$` and `^\d+$`. */
  predicate IsDigits(s: string)
  {
    |s| > 0 && AllDigits(s)
  }

  /** The regular expression `^[0-9]{10}$`. */
  predicate IsTenDigits(s: string)
  {
    |s| == 10 && AllDigits(s)
  }

  predicate HasNonZeroDigit(s: string)
  {
    exists i :: 0 <= i < |s| && IsDigit(s[i]) && s[i] != '0'
  }

  function DigitValue(c: char): (d: nat)
    requires IsDigit(c)
    ensures d < 10
  {
    (c as int - '0' as int) as nat
  }

  /** The value of a decimal digit string, most significant digit first; "" is 0. */
  function Value(s: string): nat
    requires AllDigits(s)
  {
    if s == [] then 0 else 10 * Value(s[..|s| - 1]) + DigitValue(s[|s| - 1])
  }

  function Pow10(n: nat): (p: nat)
    ensures p >= 1
  {
    if n == 0 then 1 else 10 * Pow10(n - 1)
  }

  /**
   * The length JavaScript reports for a string: its UTF-16 code units, two for a character above
   * U+FFFF and one for any other.
   */
  function JsLength(s: string): (n: nat)
    ensures n >= |s|
  {
    if s == [] then 0 else JsLength(s[..|s| - 1]) + (if s[|s| - 1] as int > 0xFFFF then 2 else 1)
  }

  /** Digits are one code unit each, so a digit string's JavaScript length is its length. */
  lemma {:induction false} DigitsLength(s: string)
    requires AllDigits(s)
    ensures JsLength(s) == |s|
  {
    if s != [] {
      var init := s[..|s| - 1];
      assert AllDigits(init) by {
        forall i | 0 <= i < |init| ensures IsDigit(init[i]) { assert init[i] == s[i]; }
      }
      DigitsLength(init);
    }
  }

  /** The index of the first occurrence of `c` in `s`, or `|s|` when there is none. */
  function IndexOf(s: string, c: char): (k: nat)
    ensures k <= |s|
    ensures k < |s| ==> s[k] == c
    ensures forall i :: 0 <= i < k ==> s[i] != c
  {
    if s == [] then 0 else if s[0] == c then 0 else 1 + IndexOf(s[1..], c)
  }

  /** The regular expression `^\d+(\.\d+)?$`: digits, optionally a point and more digits. */
  predicate IsDecimal(s: string)
  {
    var k := IndexOf(s, '.');
    IsDigits(s[..k]) && (k == |s| || IsDigits(s[k + 1..]))
  }

  predicate StartsWith(s: string, prefix: string)
  {
    |prefix| <= |s| && s[..|prefix|] == prefix
  }

  /** A digit string has a positive value exactly when one of its digits is not '0'. */
  lemma {:induction false} ValuePositive(s: string)
    requires AllDigits(s)
    ensures Value(s) > 0 <==> HasNonZeroDigit(s)
  {
    if s != [] {
      var init := s[..|s| - 1];
      assert AllDigits(init) by {
        forall i | 0 <= i < |init| ensures IsDigit(init[i]) { assert init[i] == s[i]; }
      }
      ValuePositive(init);
      NonZeroSnoc(s);
    }
  }

  lemma NonZeroSnoc(s: string)
    requires |s| > 0
    ensures HasNonZeroDigit(s) <==>
      HasNonZeroDigit(s[..|s| - 1]) || (IsDigit(s[|s| - 1]) && s[|s| - 1] != '0')
  {
    var init := s[..|s| - 1];
    if HasNonZeroDigit(init) {
      var i :| 0 <= i < |init| && IsDigit(init[i]) && init[i] != '0';
      assert s[i] == init[i];
    }
    if HasNonZeroDigit(s) {
      var i :| 0 <= i < |s| && IsDigit(s[i]) && s[i] != '0';
      if i < |init| { assert init[i] == s[i]; }
    }
  }

  /** A character that does not occur is found at `|s|`. */
  lemma Absent(s: string, c: char)
    requires forall i :: 0 <= i < |s| ==> s[i] != c
    ensures IndexOf(s, c) == |s|
  {
  }

  /** Digit strings contain neither a point nor an exponent letter. */
  lemma DigitsHaveNo(s: string, c: char)
    requires AllDigits(s) && !IsDigit(c)
    ensures IndexOf(s, c) == |s|
  {
    Absent(s, c);
  }
}
